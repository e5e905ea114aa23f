/**
 * The shared match record the engine and the computer opponent read and write: who plays, whether
 * the match runs, the arena size and a snapshot of each cycle. Every helper builds a new record
 * from the old one; `Date.now()` enters as the parameter `now`.
 */
module GameStore {
  import opened Geometry

  /** The settings' game mode: single player, two players on one keyboard, or against the computer. */
  datatype GameMode = Single | LocalMultiplayer | AgainstAI

  datatype Opponent = Human | Computer

  datatype Winner = Player1 | Player2 | Draw

  datatype PlayerInfo = PlayerInfo(position: Point, direction: Direction, trail: seq<Point>, isAlive: bool)

  datatype GameState = GameState(
    isPlaying: bool,
    isPaused: bool,
    gameOver: bool,
    score: int,
    isResetting: bool,
    opponent: Option<Opponent>,
    winner: Option<Winner>,
    bounds: Bounds,
    player1: PlayerInfo,
    player2: PlayerInfo,
    lastUpdate: int)

  /** The record the store starts with. */
  const InitialState: GameState :=
    GameState(false, false, false, 0, false, None, None, Bounds(0.0, 0.0),
              PlayerInfo(Point(0.0, 0.0), Right, [], true),
              PlayerInfo(Point(0.0, 0.0), Left, [], true),
              0)

  /** Nothing is running and nobody has won; player 1 faces right, player 2 left, both alive. */
  lemma InitialStateIsIdle()
    ensures !InitialState.isPlaying && !InitialState.isPaused && !InitialState.gameOver
    ensures InitialState.score == 0 && InitialState.winner.None? && InitialState.opponent.None?
    ensures InitialState.bounds == Bounds(0.0, 0.0)
    ensures InitialState.player1.direction == Right && InitialState.player2.direction == Left
    ensures InitialState.player1.isAlive && InitialState.player2.isAlive
    ensures InitialState.player1.trail == [] && InitialState.player2.trail == []
  {
  }

  function UpdateGameBounds(s: GameState, width: real, height: real, now: int): (r: GameState)
    ensures r.bounds == Bounds(width, height) && r.lastUpdate == now
    ensures r.(bounds := s.bounds, lastUpdate := s.lastUpdate) == s
  {
    s.(bounds := Bounds(width, height), lastUpdate := now)
  }

  /** Replace player 1's snapshot (`isAlive` defaults to true at the call sites). */
  function UpdatePlayer1Info(s: GameState, position: Point, direction: Direction, trail: seq<Point>,
                             isAlive: bool, now: int): (r: GameState)
    ensures r.player1 == PlayerInfo(position, direction, trail, isAlive) && r.lastUpdate == now
    ensures r.(player1 := s.player1, lastUpdate := s.lastUpdate) == s
  {
    s.(player1 := PlayerInfo(position, direction, trail, isAlive), lastUpdate := now)
  }

  /** Replace player 2's snapshot. */
  function UpdatePlayer2Info(s: GameState, position: Point, direction: Direction, trail: seq<Point>,
                             isAlive: bool, now: int): (r: GameState)
    ensures r.player2 == PlayerInfo(position, direction, trail, isAlive) && r.lastUpdate == now
    ensures r.(player2 := s.player2, lastUpdate := s.lastUpdate) == s
  {
    s.(player2 := PlayerInfo(position, direction, trail, isAlive), lastUpdate := now)
  }

  function SetPlayer1Alive(s: GameState, isAlive: bool, now: int): (r: GameState)
    ensures r.player1 == s.player1.(isAlive := isAlive) && r.lastUpdate == now
    ensures r.(player1 := s.player1, lastUpdate := s.lastUpdate) == s
  {
    s.(player1 := s.player1.(isAlive := isAlive), lastUpdate := now)
  }

  function SetPlayer2Alive(s: GameState, isAlive: bool, now: int): (r: GameState)
    ensures r.player2 == s.player2.(isAlive := isAlive) && r.lastUpdate == now
    ensures r.(player2 := s.player2, lastUpdate := s.lastUpdate) == s
  {
    s.(player2 := s.player2.(isAlive := isAlive), lastUpdate := now)
  }

  /** Snapshots of the two players are independent: writing them in either order gives one record. */
  lemma PlayerUpdatesCommute(s: GameState, a: PlayerInfo, b: PlayerInfo, now: int)
    ensures UpdatePlayer2Info(UpdatePlayer1Info(s, a.position, a.direction, a.trail, a.isAlive, now),
                              b.position, b.direction, b.trail, b.isAlive, now)
         == UpdatePlayer1Info(UpdatePlayer2Info(s, b.position, b.direction, b.trail, b.isAlive, now),
                              a.position, a.direction, a.trail, a.isAlive, now)
  {
  }

  /** Marking a player after writing its snapshot is the same as writing the snapshot so marked. */
  lemma AliveOverridesInfo(s: GameState, position: Point, direction: Direction, trail: seq<Point>,
                           isAlive: bool, alive: bool, t1: int, t2: int)
    ensures SetPlayer1Alive(UpdatePlayer1Info(s, position, direction, trail, isAlive, t1), alive, t2)
         == UpdatePlayer1Info(s, position, direction, trail, alive, t2)
    ensures SetPlayer2Alive(UpdatePlayer2Info(s, position, direction, trail, isAlive, t1), alive, t2)
         == UpdatePlayer2Info(s, position, direction, trail, alive, t2)
  {
  }

  /** `cleanupGame`: write a fresh record, whatever the store held. */
  function CleanupGame(s: GameState): (r: GameState)
    ensures r == InitialState
  {
    GameState(false, false, false, 0, false, None, None, Bounds(0.0, 0.0),
              PlayerInfo(Point(0.0, 0.0), Right, [], true),
              PlayerInfo(Point(0.0, 0.0), Left, [], true),
              0)
  }

  /** Cleaning up twice is cleaning up once. */
  lemma CleanupIsIdempotent(s: GameState)
    ensures CleanupGame(CleanupGame(s)) == CleanupGame(s)
  {
  }

  /** The opponent a game mode brings: a human, the computer, or nobody. */
  function OpponentFor(mode: GameMode): Option<Opponent> {
    match mode
    case LocalMultiplayer => Some(Human)
    case AgainstAI => Some(Computer)
    case Single => None
  }

  /** The first, immediate write of `restartGame`: the cleaned record, marked as resetting. */
  function RestartBegin(s: GameState): (r: GameState)
    ensures r == InitialState.(isResetting := true)
  {
    CleanupGame(s).(isResetting := true)
  }

  /** Right after a restart nothing of the old match is left: the score is 0 and a reset is under way. */
  lemma RestartForgetsTheMatch(s1: GameState, s2: GameState)
    ensures RestartBegin(s1) == RestartBegin(s2)
    ensures RestartBegin(s1).isResetting && RestartBegin(s1).score == 0 && !RestartBegin(s1).isPlaying
  {
  }

  /**
   * The deferred write of `restartGame`: a running match in a window-sized arena, player 1 at
   * (100, h/2) facing right, player 2 at (w-200, h/2) facing left, with the mode's opponent.
   */
  function RestartFinish(mode: GameMode, window: Bounds, now: int): (r: GameState)
    ensures r.isPlaying && !r.isResetting && !r.gameOver && !r.isPaused
    ensures r.score == 0 && r.winner.None?
    ensures r.opponent.Some? <==> mode != Single
    ensures r.opponent == Some(Human) <==> mode == LocalMultiplayer
    ensures r.opponent == Some(Computer) <==> mode == AgainstAI
    ensures r.bounds == window && r.lastUpdate == now
    ensures r.player1.isAlive && r.player2.isAlive && r.player1.trail == [] && r.player2.trail == []
  {
    GameState(true, false, false, 0, false, OpponentFor(mode), None, window,
              PlayerInfo(Point(100.0, window.height / 2.0), Right, [], true),
              PlayerInfo(Point(window.width - 200.0, window.height / 2.0), Left, [], true),
              now)
  }

  /** The store's single mutable cell (the `writable` every module reads with `get`). */
  class Store {
    var state: GameState

    constructor ()
      ensures state == InitialState
    {
      state := InitialState;
    }
  }
}
