/**
 * The game engine: it creates the cycles, runs the per-frame referee (moves, wall and trail
 * checks, head-on check, game over), maps keys and swipes onto headings, and blends colours.
 * The screen size enters as the field `screen`, `Date.now()` as `now`, the settings as parameters.
 */
module Engine {
  import opened Geometry
  import opened Steering
  import opened Vehicle
  import opened Touch
  import GameStore
  import AiStore

  /** The test `checkBoundaryCollision` applies: strictly beyond an edge, so the edges themselves are inside. */
  predicate OffScreen(p: Point, screen: Bounds) {
    p.x < 0.0 || p.x > screen.width || p.y < 0.0 || p.y > screen.height
  }

  /** Off the screen exactly when some wall is at a negative distance. */
  lemma OffScreenMeansNoRoom(p: Point, screen: Bounds)
    ensures OffScreen(p, screen) <==> DistanceToWall(p, screen) < 0.0
  {
    NearestWall(p, screen);
  }

  /**
   * The referee's screen is closed where the computer opponents' arena is half-open: the far
   * corner is on the screen but outside the arena, and nothing off the screen is in the arena.
   */
  lemma ScreenIsClosedArenaIsNot(screen: Bounds, p: Point)
    requires 0.0 <= screen.width && 0.0 <= screen.height
    ensures !OffScreen(Point(screen.width, screen.height), screen)
    ensures OffArena(Point(screen.width, screen.height), screen)
    ensures OffScreen(p, screen) ==> OffArena(p, screen)
  {
  }

  /** Two cycles meet head-on when their centres are closer than 10 pixels. */
  predicate HeadOn(p: Point, q: Point) {
    Within(p, q, 10.0)
  }

  lemma HeadOnIsCloserThanTen(dist: Metric, p: Point, q: Point)
    requires Euclidean(dist)
    ensures HeadOn(p, q) <==> dist(p, q) < 10.0
  {
    WithinIsDistanceBelow(dist, p, q, 10.0);
  }

  /**
   * The referee's verdict for one frame, from what it finds in the order it looks: player 1 off the
   * screen or on its own trail, then (with a second player) player 2 likewise, player 1 on player
   * 2's trail, player 2 on player 1's trail, and the two heads meeting. The first finding decides.
   */
  function Verdict(p1Crashed: bool, rival: bool, p2Crashed: bool, p1OnTrail2: bool, p2OnTrail1: bool,
                   headOn: bool): (r: Option<GameStore.Winner>)
    ensures r == Some(GameStore.Player2) <==> p1Crashed || (rival && !p2Crashed && p1OnTrail2)
    ensures r == Some(GameStore.Player1) <==> !p1Crashed && rival && (p2Crashed || (!p1OnTrail2 && p2OnTrail1))
    ensures r == Some(GameStore.Draw)
        <==> !p1Crashed && rival && !p2Crashed && !p1OnTrail2 && !p2OnTrail1 && headOn
    ensures r == None <==> !p1Crashed && (!rival || (!p2Crashed && !p1OnTrail2 && !p2OnTrail1 && !headOn))
  {
    if p1Crashed then Some(GameStore.Player2)
    else if !rival then None
    else if p2Crashed then Some(GameStore.Player1)
    else if p1OnTrail2 then Some(GameStore.Player2)
    else if p2OnTrail1 then Some(GameStore.Player1)
    else if headOn then Some(GameStore.Draw)
    else None
  }

  /**
   * The verdict of `checkPlayerCollision`, which the loop does not call: it looks for a head-on
   * meeting first, then player 1 on player 2's trail, then player 2 on player 1's trail.
   */
  function CollisionVerdict(p1OnTrail2: bool, p2OnTrail1: bool, headOn: bool): (r: Option<GameStore.Winner>)
    ensures r == Some(GameStore.Draw) <==> headOn
    ensures r == Some(GameStore.Player2) <==> !headOn && p1OnTrail2
    ensures r == Some(GameStore.Player1) <==> !headOn && !p1OnTrail2 && p2OnTrail1
  {
    if headOn then Some(GameStore.Draw)
    else if p1OnTrail2 then Some(GameStore.Player2)
    else if p2OnTrail1 then Some(GameStore.Player1)
    else None
  }

  /**
   * The two referees agree on two cycles that both survived their own moves, unless the heads
   * meet while one is on the other's trail: the loop then awards the match, the other check calls
   * a draw.
   */
  lemma RefereesDifferOnlyOnHeadOn(p1OnTrail2: bool, p2OnTrail1: bool, headOn: bool)
    ensures !headOn || (!p1OnTrail2 && !p2OnTrail1) ==>
              Verdict(false, true, false, p1OnTrail2, p2OnTrail1, headOn)
              == CollisionVerdict(p1OnTrail2, p2OnTrail1, headOn)
    ensures headOn && (p1OnTrail2 || p2OnTrail1) ==>
              Verdict(false, true, false, p1OnTrail2, p2OnTrail1, headOn).value != GameStore.Draw
              && CollisionVerdict(p1OnTrail2, p2OnTrail1, headOn) == Some(GameStore.Draw)
  {
  }

  /**
   * The loop's verdict read off the cycles after their moves. A human player 2 also loses on its
   * own trail; the computer's move never reports one, so only the screen edge can stop it.
   */
  function Judge(p1: Player, p2: Player?, human: bool, screen: Bounds): Option<GameStore.Winner>
    reads p1, p2
  {
    var p1Crashed := TrailHit(p1.trail, p1.position) || OffScreen(p1.position, screen);
    if p2 == null then Verdict(p1Crashed, false, false, false, false, false)
    else Verdict(p1Crashed, true, (human && TrailHit(p2.trail, p2.position)) || OffScreen(p2.position, screen),
                 TrailHit(p2.trail, p1.position), TrailHit(p1.trail, p2.position),
                 HeadOn(p1.position, p2.position))
  }

  /** The record `handleGameOver` writes: the match has stopped and has a winner; nothing else changes. */
  function GameOver(s: GameStore.GameState, w: GameStore.Winner): (r: GameStore.GameState)
    ensures !r.isPlaying && r.gameOver && r.winner == Some(w)
    ensures r.(isPlaying := s.isPlaying, gameOver := s.gameOver, winner := s.winner) == s
  {
    s.(isPlaying := false, gameOver := true, winner := Some(w))
  }

  /** Whether a cycle's move counts towards the single-player score. */
  predicate Scoring(mode: GameStore.GameMode, s: GameStore.GameState) {
    mode == GameStore.Single && s.opponent.None?
  }

  /** Four key names, one per heading, as the settings store them. */
  datatype Controls = Controls(up: string, right: string, down: string, left: string)

  /** The arrow keys, which player 1 uses when not sharing the keyboard. */
  const Arrows: Controls := Controls("ArrowUp", "ArrowRight", "ArrowDown", "ArrowLeft")

  predicate Distinct(c: Controls) {
    c.up != c.right && c.up != c.down && c.up != c.left
    && c.right != c.down && c.right != c.left && c.down != c.left
  }

  /** The heading a key is bound to, if any (the first binding, in the order UP, RIGHT, DOWN, LEFT). */
  function Bound(key: string, c: Controls): Option<Direction> {
    if key == c.up then Some(Up)
    else if key == c.right then Some(Right)
    else if key == c.down then Some(Down)
    else if key == c.left then Some(Left)
    else None
  }

  /**
   * The heading after a key press: each of the four bindings is tested in turn, and each match
   * asks the cycle to steer that way.
   */
  function Keyed(d: Direction, key: string, c: Controls): Direction {
    var d1 := if key == c.up then Steer(d, Up) else d;
    var d2 := if key == c.right then Steer(d1, Right) else d1;
    var d3 := if key == c.down then Steer(d2, Down) else d2;
    if key == c.left then Steer(d3, Left) else d3
  }

  /**
   * With four different keys a press is one steering request, for the heading the key is bound
   * to, and an unbound key changes nothing; in particular a press never reverses the cycle.
   */
  lemma KeyedIsOneRequest(d: Direction, key: string, c: Controls)
    requires Distinct(c)
    ensures Keyed(d, key, c) == match Bound(key, c) case None => d case Some(h) => Steer(d, h)
    ensures Keyed(d, key, c) != Reverse(d)
  {
  }

  /**
   * With one key bound to both UP and LEFT, a cycle heading RIGHT is turned UP and then LEFT by a
   * single press, ending up reversed.
   */
  lemma SharedKeyReverses()
    ensures Keyed(Right, "w", Controls("w", "d", "s", "w")) == Reverse(Right)
  {
  }

  /** The arrow keys are four different keys. */
  lemma ArrowsAreDistinct()
    ensures Distinct(Arrows)
  {
  }

  /** The heading a swipe asks for. */
  function SwipeHeading(s: Swipe): Direction {
    match s
    case SwipeUp => Up
    case SwipeRight => Right
    case SwipeDown => Down
    case SwipeLeft => Left
  }

  /** Opposite swipes ask for opposite headings, so the second of two opposite swipes is refused. */
  lemma OppositeSwipesOppositeHeadings(s: Swipe, d: Direction)
    ensures SwipeHeading(Flip(s)) == Reverse(SwipeHeading(s))
    ensures Steer(SwipeHeading(s), SwipeHeading(Flip(s))) == SwipeHeading(s)
  {
  }

  /** Press a key: each binding it matches, tested in the order UP, RIGHT, DOWN, LEFT, steers the cycle. */
  method Press(p: Player, key: string, c: Controls)
    modifies p`direction
    ensures p.direction == Keyed(old(p.direction), key, c)
  {
    if key == c.up {
      p.SetDirection(Up);
    }
    if key == c.right {
      p.SetDirection(Right);
    }
    if key == c.down {
      p.SetDirection(Down);
    }
    if key == c.left {
      p.SetDirection(Left);
    }
  }

  /** `Math.round`: the nearest integer, halves rounded up. */
  function Round(x: real): (n: int)
    ensures n as real <= x + 0.5 < n as real + 1.0
  {
    (x + 0.5).Floor
  }

  /** The red, green and blue channels of a colour, `(c >> 16) & 0xFF`, `(c >> 8) & 0xFF`, `c & 0xFF`. */
  function Red(c: int): int {
    (c / 0x10000) % 0x100
  }

  function Green(c: int): int {
    (c / 0x100) % 0x100
  }

  function Blue(c: int): int {
    c % 0x100
  }

  /** `(r << 16) | (g << 8) | b` for channels of 8 bits. */
  function Pack(r: int, g: int, b: int): int {
    r * 0x10000 + g * 0x100 + b
  }

  lemma ChannelsOfPack(r: int, g: int, b: int)
    requires 0 <= r < 0x100 && 0 <= g < 0x100 && 0 <= b < 0x100
    ensures 0 <= Pack(r, g, b) < 0x1000000
    ensures Red(Pack(r, g, b)) == r && Green(Pack(r, g, b)) == g && Blue(Pack(r, g, b)) == b
  {
    var c := Pack(r, g, b);
    assert c / 0x100 == r * 0x100 + g;
    assert c / 0x10000 == r;
  }

  lemma PackOfChannels(c: int)
    requires 0 <= c < 0x1000000
    ensures Pack(Red(c), Green(c), Blue(c)) == c
  {
    var q := c / 0x100;
    assert c == q * 0x100 + Blue(c);
    assert q / 0x100 == c / 0x10000;
    assert q == (q / 0x100) * 0x100 + Green(c);
    assert Red(c) == c / 0x10000;
  }

  /** One channel blended: the rounded point a fraction `t` of the way from `a` to `b`. */
  function Mix(a: int, b: int, t: real): (r: int)
    requires 0.0 <= t <= 1.0
    ensures a <= b ==> a <= r <= b
    ensures b <= a ==> b <= r <= a
    ensures t == 0.0 ==> r == a
    ensures t == 1.0 ==> r == b
  {
    var x := a as real + (b - a) as real * t;
    assert a <= b ==> 0.0 <= (b - a) as real * t <= (b - a) as real;
    assert b <= a ==> 0.0 <= (a - b) as real * t <= (a - b) as real;
    Round(x)
  }

  /** `lerpColor`: each channel blended separately, then repacked. */
  function LerpColor(color1: int, color2: int, t: real): (r: int)
    requires 0.0 <= t <= 1.0
    ensures 0 <= r < 0x1000000
    ensures Red(r) == Mix(Red(color1), Red(color2), t)
    ensures Green(r) == Mix(Green(color1), Green(color2), t)
    ensures Blue(r) == Mix(Blue(color1), Blue(color2), t)
  {
    var r := Mix(Red(color1), Red(color2), t);
    var g := Mix(Green(color1), Green(color2), t);
    var b := Mix(Blue(color1), Blue(color2), t);
    ChannelsOfPack(r, g, b);
    Pack(r, g, b)
  }

  /** The blend starts at the first colour and ends at the second, for 24-bit colours. */
  lemma LerpColorEnds(color1: int, color2: int)
    requires 0 <= color1 < 0x1000000 && 0 <= color2 < 0x1000000
    ensures LerpColor(color1, color2, 0.0) == color1
    ensures LerpColor(color1, color2, 1.0) == color2
  {
    PackOfChannels(color1);
    PackOfChannels(color2);
  }

  class GameEngine {
    const store: GameStore.Store
    var screen: Bounds
    var player1: Player?
    var player2: Player?
    /** The computer opponent when there is one; `player2` is then its vehicle. */
    var computer: AiStore.StoreAI?
    /** Whether the frame ticker runs the game loop. */
    var ticking: bool

    ghost predicate Valid()
      reads this, player1, player2, computer
    {
      (player1 != null ==> player1.Valid() && player1 != player2)
      && (computer == null && player2 != null ==> player2.Valid())
      && (computer != null ==> player2 == computer.body && computer.store == store && computer.Valid())
    }

    constructor (store: GameStore.Store, screen: Bounds)
      ensures Valid() && this.store == store && this.screen == screen
      ensures player1 == null && player2 == null && computer == null && !ticking
    {
      this.store := store;
      this.screen := screen;
      player1 := null;
      player2 := null;
      computer := null;
      ticking := false;
    }

    /** Stop the ticker and record the end of the match with its winner. */
    method HandleGameOver(winner: GameStore.Winner)
      modifies this`ticking, store`state
      ensures !ticking && store.state == GameOver(old(store.state), winner)
    {
      ticking := false;
      store.state := GameOver(store.state, winner);
    }

    /**
     * Player 1's part of a frame: its own move (scored in single-player mode) and whether it then
     * lies on its own trail or off the screen.
     */
    method TickPlayer1(mode: GameStore.GameMode) returns (crashed: bool)
      requires Valid() && player1 != null
      modifies {player1}`position, {player1}`trail, {player1}`lastPosition, {player1}`distanceTraveled, store`state
      ensures Valid()
      ensures crashed == (TrailHit(player1.trail, player1.position) || OffScreen(player1.position, screen))
      ensures player1.position == Displace(old(player1.position), player1.direction, player1.speed)
      ensures player1.trail
           == if player1.position != old(player1.position) then old(player1.trail) + [player1.position] else old(player1.trail)
      ensures store.state == old(store.state).(score := store.state.score)
      ensures !Scoring(mode, old(store.state)) ==> store.state.score == old(store.state.score)
    {
      var collided, score := player1.Update(Scoring(mode, store.state), store.state.score);
      store.state := store.state.(score := score);
      crashed := collided || OffScreen(player1.position, screen);
    }

    /**
     * Player 2's part of a frame: the computer's frame (which publishes its snapshot) or the human
     * cycle's move, and whether it then lies off the screen or, for a human, on its own trail.
     */
    method TickPlayer2(delta: real, mode: GameStore.GameMode, draws: Draws, dist: Metric, now: int)
      returns (crashed: bool)
      requires Valid() && player2 != null
      modifies {player2}`position, {player2}`trail, {player2}`lastPosition, {player2}`distanceTraveled
      modifies {player2}`direction, store`state
      modifies ({computer} - {null})`decisionTimer, ({computer} - {null})`lastDecision
      modifies ({computer} - {null})`gameBounds
      ensures Valid()
      ensures crashed
           == ((computer == null && TrailHit(player2.trail, player2.position)) || OffScreen(player2.position, screen))
      ensures store.state.(player2 := old(store.state.player2), lastUpdate := old(store.state.lastUpdate),
                           score := old(store.state.score))
           == old(store.state)
      ensures !Scoring(mode, old(store.state)) ==> store.state.score == old(store.state.score)
      ensures player2.trail
           == if player2.position != old(player2.position) then old(player2.trail) + [player2.position] else old(player2.trail)
      ensures computer == null ==>
                player2.direction == old(player2.direction)
                && player2.position == Displace(old(player2.position), player2.direction, player2.speed)
                && player2.lastPosition == player2.position
                && player2.distanceTraveled
                   == old(player2.distanceTraveled) + (if Scoring(mode, old(store.state)) then Abs(player2.speed) else 0.0)
                && store.state
                   == old(store.state).(score := if Scoring(mode, old(store.state))
                                                    && Milestone(player2.distanceTraveled, Abs(player2.speed))
                                                 then old(store.state.score) + ScoreBonus
                                                 else old(store.state.score))
      ensures computer != null ==>
                (player2.position, player2.direction)
                == AiStore.GuardedStep(old(player2.position), old(computer.Decision(delta, draws, dist)).0,
                                       player2.speed, computer.gameBounds)
                && store.state
                   == GameStore.UpdatePlayer2Info(old(store.state), old(player2.position),
                                                  old(computer.Decision(delta, draws, dist)).0, old(player2.trail), true, now)
      ensures computer != null ==>
                computer.decisionTimer
                == (if old(computer.decisionTimer) + delta >= computer.decisionInterval then 0.0
                    else old(computer.decisionTimer) + delta)
                && computer.gameBounds == AiStore.ArenaFrom(store.state, screen)
                && var decided := old(computer.Decision(delta, draws, dist));
                   var kept := AiStore.Margin
                               <= DistanceToWall(Displace(old(player2.position), decided.0, player2.speed), computer.gameBounds);
                   (computer.lastDecision == if kept then decided.1 else Some(player2.direction))
                   && if kept && Scoring(mode, old(store.state)) && store.state.opponent.None?
                      then player2.distanceTraveled
                           == old(player2.distanceTraveled) + dist(old(player2.lastPosition), player2.position)
                           && player2.lastPosition == player2.position
                      else player2.distanceTraveled == old(player2.distanceTraveled)
                           && player2.lastPosition == old(player2.lastPosition)
    {
      var collided;
      if computer != null {
        collided := computer.Update(delta, Scoring(mode, store.state), screen, draws, dist, now);
      } else {
        var score;
        collided, score := player2.Update(Scoring(mode, store.state), store.state.score);
        store.state := store.state.(score := score);
      }
      crashed := collided || OffScreen(player2.position, screen);
    }

    /**
     * The rest of a frame once player 1 has survived its move: player 2's move, its snapshot, the
     * cross-trail checks and the head-on check, the first finding ending the match.
     */
    method RivalFrame(delta: real, mode: GameStore.GameMode, draws: Draws, dist: Metric, now: int)
      requires Valid() && player1 != null && player2 != null
      requires !TrailHit(player1.trail, player1.position) && !OffScreen(player1.position, screen)
      modifies {player2}`position, {player2}`trail, {player2}`lastPosition, {player2}`distanceTraveled
      modifies {player2}`direction, store`state, this`ticking
      modifies ({computer} - {null})`decisionTimer, ({computer} - {null})`lastDecision
      modifies ({computer} - {null})`gameBounds
      ensures Valid()
      ensures var verdict := Judge(player1, player2, computer == null, screen);
              (store.state.gameOver <==> verdict.Some? || old(store.state.gameOver))
              && store.state.winner == (if verdict.Some? then verdict else old(store.state.winner))
              && store.state.isPlaying == (verdict.None? && old(store.state.isPlaying))
              && ticking == (verdict.None? && old(ticking))
              && (verdict.None? ==>
                    store.state.player2 == GameStore.PlayerInfo(player2.position, player2.direction, player2.trail, true))
      ensures store.state.(player2 := old(store.state.player2), score := old(store.state.score),
                           lastUpdate := old(store.state.lastUpdate), isPlaying := old(store.state.isPlaying),
                           gameOver := old(store.state.gameOver), winner := old(store.state.winner))
           == old(store.state)
      ensures !Scoring(mode, old(store.state)) ==> store.state.score == old(store.state.score)
    {
      var crashed := TickPlayer2(delta, mode, draws, dist, now);
      if crashed {
        HandleGameOver(GameStore.Player1);
        return;
      }
      store.state := GameStore.UpdatePlayer2Info(store.state, player2.position, player2.direction, player2.trail, true, now);
      CrossChecks();
    }

    /**
     * The checks once both cycles survived their own moves: player 1 on player 2's trail, player 2
     * on player 1's trail, then the heads meeting; the first finding ends the match.
     */
    method CrossChecks()
      requires player1 != null && player2 != null
      modifies store`state, this`ticking
      ensures var verdict := Verdict(false, true, false, TrailHit(player2.trail, player1.position),
                                     TrailHit(player1.trail, player2.position), HeadOn(player1.position, player2.position));
              if verdict.Some? then !ticking && store.state == GameOver(old(store.state), verdict.value)
              else ticking == old(ticking) && store.state == old(store.state)
    {
      var hit := player2.CheckCollisionWithPoint(player1.position);
      if hit {
        HandleGameOver(GameStore.Player2);
        return;
      }
      hit := player1.CheckCollisionWithPoint(player2.position);
      if hit {
        HandleGameOver(GameStore.Player1);
        return;
      }
      if HeadOn(player1.position, player2.position) {
        HandleGameOver(GameStore.Draw);
      }
    }

    /**
     * One frame. Without a player 1, or while the match is paused or over, nothing happens.
     * Otherwise player 1 moves (and loses on its own trail or off the screen); its snapshot is
     * published; player 2, if any, moves likewise and is published; then the cross-trail and
     * head-on checks run. The first verdict found ends the frame and the match.
     */
    /** A frame of a running match: player 1's move, then, if it survives, the rest of the frame. */
    method RunFrame(delta: real, mode: GameStore.GameMode, draws: Draws, dist: Metric, now: int)
      requires Valid() && player1 != null && !store.state.isPaused && !store.state.gameOver
      modifies store`state, this`ticking
      modifies ({player1, player2} - {null})`position, ({player1, player2} - {null})`trail
      modifies ({player1, player2} - {null})`lastPosition, ({player1, player2} - {null})`distanceTraveled
      modifies ({player2} - {null})`direction
      modifies ({computer} - {null})`decisionTimer, ({computer} - {null})`lastDecision
      modifies ({computer} - {null})`gameBounds
      ensures Valid()
      ensures var verdict := Judge(player1, player2, computer == null, screen);
              player1.position == Displace(old(player1.position), player1.direction, player1.speed)
              && player1.direction == old(player1.direction)
              && (store.state.gameOver <==> verdict.Some?)
              && store.state.winner == (if verdict.Some? then verdict else old(store.state.winner))
              && store.state.isPlaying == (verdict.None? && old(store.state.isPlaying))
              && ticking == (verdict.None? && old(ticking))
      ensures store.state.(player1 := old(store.state.player1), player2 := old(store.state.player2),
                           score := old(store.state.score), lastUpdate := old(store.state.lastUpdate),
                           isPlaying := old(store.state.isPlaying), gameOver := old(store.state.gameOver),
                           winner := old(store.state.winner))
           == old(store.state)
      ensures !Scoring(mode, old(store.state)) ==> store.state.score == old(store.state.score)
      ensures TrailHit(player1.trail, player1.position) || OffScreen(player1.position, screen) ==>
                player2 == null || (player2.position == old(player2.position) && player2.trail == old(player2.trail))
      ensures !TrailHit(player1.trail, player1.position) && !OffScreen(player1.position, screen) ==>
                store.state.player1 == GameStore.PlayerInfo(player1.position, player1.direction, player1.trail, true)
      ensures player2 != null && Judge(player1, player2, computer == null, screen).None? ==>
                store.state.player2 == GameStore.PlayerInfo(player2.position, player2.direction, player2.trail, true)
    {
      var crashed := TickPlayer1(mode);
      if crashed {
        HandleGameOver(GameStore.Player2);
        return;
      }
      store.state := GameStore.UpdatePlayer1Info(store.state, player1.position, player1.direction, player1.trail, true, now);
      if player2 != null {
        RivalFrame(delta, mode, draws, dist, now);
      }
    }

    method GameLoop(delta: real, mode: GameStore.GameMode, draws: Draws, dist: Metric, now: int)
      requires Valid()
      modifies store`state, this`ticking
      modifies ({player1, player2} - {null})`position, ({player1, player2} - {null})`trail
      modifies ({player1, player2} - {null})`lastPosition, ({player1, player2} - {null})`distanceTraveled
      modifies ({player2} - {null})`direction
      modifies ({computer} - {null})`decisionTimer, ({computer} - {null})`lastDecision
      modifies ({computer} - {null})`gameBounds
      ensures Valid()
      ensures old(player1 == null || store.state.isPaused || store.state.gameOver) ==>
                unchanged(this, store) && (player1 != null ==> unchanged(player1))
                && (player2 != null ==> unchanged(player2)) && (computer != null ==> unchanged(computer))
      ensures old(player1 != null && !store.state.isPaused && !store.state.gameOver) ==>
                var verdict := Judge(player1, player2, computer == null, screen);
                player1.position == Displace(old(player1.position), player1.direction, player1.speed)
                && player1.direction == old(player1.direction)
                && (store.state.gameOver <==> verdict.Some?)
                && store.state.winner == (if verdict.Some? then verdict else old(store.state.winner))
                && store.state.isPlaying == (verdict.None? && old(store.state.isPlaying))
                && ticking == (verdict.None? && old(ticking))
      ensures store.state.(player1 := old(store.state.player1), player2 := old(store.state.player2),
                           score := old(store.state.score), lastUpdate := old(store.state.lastUpdate),
                           isPlaying := old(store.state.isPlaying), gameOver := old(store.state.gameOver),
                           winner := old(store.state.winner))
           == old(store.state)
      ensures !Scoring(mode, old(store.state)) ==> store.state.score == old(store.state.score)
      ensures old(player1 != null && !store.state.isPaused && !store.state.gameOver)
              && (TrailHit(player1.trail, player1.position) || OffScreen(player1.position, screen)) ==>
                player2 == null || (player2.position == old(player2.position) && player2.trail == old(player2.trail))
      ensures old(player1 != null && !store.state.isPaused && !store.state.gameOver)
              && !TrailHit(player1.trail, player1.position) && !OffScreen(player1.position, screen) ==>
                store.state.player1 == GameStore.PlayerInfo(player1.position, player1.direction, player1.trail, true)
      ensures old(player1 != null && !store.state.isPaused && !store.state.gameOver) && player2 != null
              && Judge(player1, player2, computer == null, screen).None? ==>
                store.state.player2 == GameStore.PlayerInfo(player2.position, player2.direction, player2.trail, true)
    {
      if player1 != null && !store.state.isPaused && !store.state.gameOver {
        RunFrame(delta, mode, draws, dist, now);
      }
    }

    /** `checkPlayerCollision`: head-on first, then the cross-trail checks; a finding ends the match. */
    method CheckPlayerCollision() returns (over: bool)
      modifies this`ticking, store`state
      ensures var v := if player1 == null || player2 == null then None
                       else CollisionVerdict(TrailHit(player2.trail, player1.position),
                                             TrailHit(player1.trail, player2.position),
                                             HeadOn(player1.position, player2.position));
              over == v.Some?
              && (v.Some? ==> !ticking && store.state == GameOver(old(store.state), v.value))
              && (v.None? ==> ticking == old(ticking) && store.state == old(store.state))
    {
      if player1 == null || player2 == null {
        return false;
      }
      if HeadOn(player1.position, player2.position) {
        HandleGameOver(GameStore.Draw);
        return true;
      }
      var hit := player2.CheckCollisionWithPoint(player1.position);
      if hit {
        HandleGameOver(GameStore.Player2);
        return true;
      }
      hit := player1.CheckCollisionWithPoint(player2.position);
      if hit {
        HandleGameOver(GameStore.Player1);
        return true;
      }
      return false;
    }

    /**
     * A key press. Player 1 steers with the arrow keys unless two people share the keyboard, when it
     * uses its configured keys; player 2 steers with its configured keys only then.
     */
    method HandleKeydown(key: string, mode: GameStore.GameMode, keys1: Controls, keys2: Controls)
      requires Valid()
      modifies ({player1, player2} - {null})`direction
      ensures Valid()
      ensures player1 != null ==>
                player1.direction
                == Keyed(old(player1.direction), key, if mode == GameStore.LocalMultiplayer then keys1 else Arrows)
                && player1.position == old(player1.position) && player1.trail == old(player1.trail)
      ensures player2 != null ==>
                player2.direction
                == (if mode == GameStore.LocalMultiplayer then Keyed(old(player2.direction), key, keys2)
                    else old(player2.direction))
                && player2.position == old(player2.position) && player2.trail == old(player2.trail)
    {
      if player1 != null {
        Press(player1, key, if mode == GameStore.LocalMultiplayer then keys1 else Arrows);
      }
      if mode == GameStore.LocalMultiplayer && player2 != null {
        Press(player2, key, keys2);
      }
    }

    /** A swipe steers player 1. */
    method HandleSwipe(s: Swipe)
      requires Valid()
      modifies ({player1} - {null})`direction
      ensures Valid()
      ensures player1 != null ==>
                player1.direction == Steer(old(player1.direction), SwipeHeading(s))
                && player1.position == old(player1.position) && player1.trail == old(player1.trail)
    {
      if player1 != null {
        player1.SetDirection(SwipeHeading(s));
      }
    }

    /**
     * Start a match: publish the screen as the arena, put player 1 at (100, h/2) facing right and,
     * with two people or against the computer, player 2 at (w-200, h/2) facing left, the computer
     * at medium difficulty; then start the ticker.
     */
    method StartGame(mode: GameStore.GameMode, playerSpeed: real, now: int)
      requires Valid()
      modifies this`player1, this`player2, this`computer, this`ticking, store`state
      ensures Valid() && ticking
      ensures fresh(player1) && player1.position == Point(100.0, screen.height / 2.0)
      ensures player1.direction == Right && player1.speed == playerSpeed && player1.trail == [player1.position]
      ensures mode == GameStore.Single ==> player2 == old(player2) && computer == old(computer)
      ensures mode == GameStore.LocalMultiplayer ==> computer == null && fresh(player2)
      ensures mode == GameStore.AgainstAI ==>
                fresh(computer) && computer.decisionInterval == AiStore.Speeds.medium
                && computer.gameBounds == screen
      ensures mode != GameStore.Single ==>
                player2 != null && player2.position == Point(screen.width - 200.0, screen.height / 2.0)
                && player2.direction == Left && player2.speed == playerSpeed && player2.trail == [player2.position]
      ensures store.state == GameStore.UpdateGameBounds(old(store.state), screen.width, screen.height, now)
    {
      store.state := GameStore.UpdateGameBounds(store.state, screen.width, screen.height, now);
      player1 := new Player(100.0, screen.height / 2.0, playerSpeed, Right);
      if mode == GameStore.LocalMultiplayer || mode == GameStore.AgainstAI {
        if mode == GameStore.AgainstAI {
          var ai := new AiStore.StoreAI(screen.width - 200.0, screen.height / 2.0, playerSpeed, Left, store, screen, now);
          ai.SetDifficulty(Medium);
          ai.UpdateGameBounds(screen, now);
          computer := ai;
          player2 := ai.body;
        } else {
          player2 := new Player(screen.width - 200.0, screen.height / 2.0, playerSpeed, Left);
          computer := null;
        }
      }
      ticking := true;
    }

    /** End the match: stop the ticker and drop both cycles. */
    method StopGame()
      modifies this`player1, this`player2, this`computer, this`ticking
      ensures Valid()
      ensures player1 == null && player2 == null && computer == null && !ticking
    {
      ticking := false;
      player1 := null;
      player2 := null;
      computer := null;
    }
  }
}
