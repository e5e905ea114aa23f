# Light Cycle: a verified model of the game rules and the computer opponents

The model covers these parts of the Tron-style light-cycle game:

- **The vehicles.** A vehicle has a position and one of four headings. Each tick it moves its speed along the heading's axis. It drops the new position onto an append-only trail and can crash into that trail. In single-player it earns 5 points for every 50 pixels travelled.
- **The computer opponents.** There are six variants, each a vehicle that re-decides its heading on a timer. A decision scores the three non-reversing headings:
  - a first step that leaves the arena or lands on the opponent's own trail is disqualified;
  - a look-ahead penalises a crash that comes soon;
  - further terms score wall distance, trail distance, centre, open space and aggression.
  The best heading is then taken under a damping rule. Several variants also have a per-frame panic or emergency turn towards open space.
- **The referee.** One frame of the engine moves both vehicles and decides the match. In order, it checks:
  1. player 1's crash;
  2. player 2's crash;
  3. player 1 on player 2's trail;
  4. player 2 on player 1's trail;
  5. a head-on meeting.
  The engine also covers the boundary test, the game-over write, and how keys and swipes map onto headings.
- **The match-state record.** This is the shared store: its initial value, its field-for-field updates, the clean-up and the two-phase restart.
- **The touch controller.** It turns one touch into at most one swipe.

Modules, one file each:

- `Geometry` (`geometry.dfy`):
  - headings and the no-reversal rule;
  - points and the axis-aligned move;
  - the point-to-segment proximity test, with its squared-distance reading proved equal to "the nearest point of the segment is closer than the tolerance";
  - the trail collision test that skips the ten newest points.
- `Vehicle` (`player.ts`, `player.dfy`): the `Player` class and the distance score.
- `Steering` (`steering.dfy`): the decision engine shared by five of the opponents:
  - candidates and walls;
  - the look-ahead and the open-space rays;
  - the trail distance and the scoring bands;
  - the arg-max with the sort's tie order;
  - the damping rule;
  - the emergency turn;
  - the difficulty intervals.
  Each variant supplies its constants as a `Tuning` record.
- `AiStore`, `AiBulletproof`, `AiPanic`, `AiUltra`, `AiSimple`, `AiAdvanced`: one class per opponent variant. The class holds a `Player` body and the variant's own timer, damping and panic state.
- `GameStore` (`game_state.dfy`): the match-state record as a datatype, with one function per store update.
- `Touch` (`touch.dfy`): the swipe classifier and the controller's two-field state.
- `Engine` (`engine.dfy`): the `GameEngine` class, the referee's verdict order, the key and swipe mapping, and the colour interpolation.

The central theorem concerns the decision: whenever some non-reversing heading is not disqualified, the decision picks a heading that is not disqualified.
- **Proved:** for the corrected arg-max of each variant (`Steering.EscapeIsTaken`, `AiPanic.DecisionEscapes`, `AiUltra.DecisionEscapes`, `AiAdvanced.EscapeIsTaken`).
- **Assumptions:** the metric is the Euclidean distance and the random draws are non-negative.
- **Scope:** the decision methods of every variant follow the code as written, where a winning Up falls back to the current heading. For them the theorem holds only when that fallback does not bite (`Steering.AsWrittenEscapesUnlessUp`, `AiAdvanced.AsWrittenEscapesUnlessUp`); see Findings.
- **Advanced opponent:** holds only for arenas at most twice as long as they are wide, and only when the 95/5 roll picks the leader.

Environment values are parameters:
- the window size (`Bounds`);
- `Date.now()` (`now: int`);
- `Math.random()`: a `Draws` function from heading to draw, and a `roll` for the 95/5 pick;
- the frame's delta time.

The square root is a `Metric` parameter. The predicate `Euclidean` says it is the non-negative root of the squared distance. Threshold tests that the source makes on square roots (tolerance 5, head-on 10) are squared comparisons, proved equivalent under `Euclidean`.

Two behaviours of the source are modelled faithfully:
- **Arena edges differ.** The engine's boundary test is closed: a vehicle exactly on the right or bottom edge is still in play. The opponents' arena is half-open `[0, w) x [0, h)`. `Engine.ScreenIsClosedArenaIsNot` states the difference.
- **Shared keys can reverse.** When two of a player's key bindings are the same key, one keydown applies both requests in turn. That can reverse the cycle (`Engine.SharedKeyReverses`). With distinct keys a press is a single non-reversing request (`Engine.KeyedIsOneRequest`).

## Model

| member | source | states |
|---|---|---|
| Geometry.OppositeIsReverse | light-cycle/src/lib/game/player.ts:357-364 | Two headings are opposite (codes differ by exactly 2) iff one is the reverse of the other |
| Geometry.Steer | light-cycle/src/lib/game/player.ts:357-364 | A requested heading is taken unless it reverses the current one, in which case the current heading is kept; the result is never a reversal |
| Geometry.DisplaceMovesAlongAxis | light-cycle/src/lib/game/player.ts:298-311 | A move covers exactly the given distance (squared distance is its square), stays on the heading's axis, and changes the point iff the distance is non-zero |
| Geometry.DisplaceAdds | light-cycle/src/lib/game/player.ts:298-311 | Two moves along one heading add up to one move by the sum of the distances |
| Geometry.DisplaceUndone | light-cycle/src/lib/game/player.ts:298-311 | Moving back along the reversed heading returns to the start |
| Geometry.WithinIsDistanceBelow | light-cycle/src/lib/game/player.ts:441-448 | The squared tolerance test agrees with "the Euclidean distance is below the tolerance" |
| Geometry.SqDistAlong | light-cycle/src/lib/game/player.ts:414-442 | The squared distance from a point to the segment point at fraction u is the quadratic in u that the projection minimises |
| Geometry.NearSegmentUsesClamp | light-cycle/src/lib/game/player.ts:414-442 | The segment test measures the distance to the point at the projection fraction clamped to [0, 1] (nearest endpoint outside the segment) |
| Geometry.ClampIsClosest | light-cycle/src/lib/game/player.ts:414-442 | The clamped projection is the point of the segment closest to the tested point |
| Geometry.NearSegmentMeansTouching | light-cycle/src/lib/game/player.ts:414-442 | For a non-degenerate segment the test is true iff some point of the segment is strictly within the tolerance; the segment's end argument plays no part |
| Geometry.ScanTrail | light-cycle/src/lib/game/player.ts:450-476 | The early-exit loop over the trail's segments returns exactly the trail-hit predicate: some segment older than the ten newest points is within 5 of the point, and never for trails shorter than 12 points |
| Geometry.RecentPointsIgnored | light-cycle/src/lib/game/player.ts:457-474 | Two trails that agree except in their ten newest points give the same collision answer |
| Geometry.HitSurvivesGrowth | light-cycle/src/lib/game/player.ts:457-474 | A point that hits a trail still hits it after the trail grows by one point |
| Vehicle.AxisDistance | light-cycle/src/lib/game/player.ts:444-448 | For two points on one axis line, the axis difference is the non-negative Euclidean distance |
| Vehicle.StridesAdvanceByAtMostOne | light-cycle/src/lib/game/player.ts:326-347 | A step of at most 50 crosses at most one multiple of 50 |
| Vehicle.EarnedCountsStrides | light-cycle/src/lib/game/player.ts:326-347 | Over n ticks of a step of at most 50, the accumulated score is 5 times the number of multiples of 50 passed |
| Vehicle.FirstAwardAtDefaultSpeed | light-cycle/src/lib/game/player.ts:326-347 | At speed 5 the first 5 points arrive on the tenth tick, not the ninth |
| Vehicle.TravelledIsProduct | light-cycle/src/lib/game/player.ts:326-331 | After n ticks of the same step the running distance is n times the step |
| Vehicle.Player.constructor | light-cycle/src/lib/game/player.ts:40-82 | A new vehicle stands at its start with its heading and speed, its trail is the start alone, and it has travelled nothing |
| Vehicle.Player.ApplySettings | light-cycle/src/lib/game/player.ts:83-99 | A settings change overwrites the speed |
| Vehicle.Player.SetDirection | light-cycle/src/lib/game/player.ts:357-364 | The heading becomes the request unless that reverses it; the position and trail do not change |
| Vehicle.Player.CheckCollisionWithPoint | light-cycle/src/lib/game/player.ts:450-476 | The answer is the trail-hit predicate of the vehicle's own trail |
| Vehicle.Player.Update | light-cycle/src/lib/game/player.ts:285-355 | The vehicle moves its speed along its heading; the new position is appended iff it moved; in single-player the distance grows by the speed and 5 points are added iff a multiple of 50 was crossed, otherwise the score is unchanged; the last position becomes the new position; the returned collision is the own-trail test of the new position |
| Steering.Candidates | light-cycle/src/lib/game/ai-player-store.ts:229-236 | Exactly the three headings other than the reverse, in increasing code order |
| Steering.NearestWall | light-cycle/src/lib/game/ai-player-store.ts:416-424 | The wall distance is at most each of the four edge distances and equals one of them |
| Steering.InsideMeansRoom | light-cycle/src/lib/game/ai-player-store.ts:249-253 | A point in the half-open arena has non-negative wall distance; positive wall distance puts it in the arena; non-negative wall distance means the closed rectangle |
| Steering.Probe | light-cycle/src/lib/game/ai-player-store.ts:249-259 | A point is blocked iff it leaves the arena or hits the vehicle's own trail |
| Steering.FirstBlocked | light-cycle/src/lib/game/ai-player-store.ts:264-279 | The first blocked look-ahead step, if any: that step is blocked and every earlier one is free; none means all steps up to the horizon are free |
| Steering.LookAhead | light-cycle/src/lib/game/ai-player-store.ts:264-279 | The look-ahead loop with early exit returns the first blocked step in 1..horizon |
| Steering.Ray | light-cycle/src/lib/game/ai-player-store.ts:353-380 | A ray counts at most cap-1 free steps |
| Steering.RayIsFreeRun | light-cycle/src/lib/game/ai-player-store.ts:353-380 | Every step a ray counts is free, and a ray that stops early stops at a blocked step |
| Steering.SpaceIsFourRays | light-cycle/src/lib/game/ai-player-store.ts:353-380 | The open-space score is the sum of the four rays and at most 4*(cap-1) |
| Steering.SpaceScan | light-cycle/src/lib/game/ai-player-store.ts:353-380 | The nested ray loops compute the open-space score |
| Steering.Nearest | light-cycle/src/lib/game/ai-player-store.ts:399-408 | The minimum over a non-empty trail: no trail point is closer and some point is at that distance |
| Steering.TrailDistance | light-cycle/src/lib/game/ai-player-store.ts:399-408 | 1000 for an empty trail, otherwise the distance to the nearest trail point (points, not segments) |
| Steering.MeasureTrailDistance | light-cycle/src/lib/game/ai-player-store.ts:399-408 | The loop computes the trail distance |
| Steering.BandFloor | light-cycle/src/lib/game/ai-player-store.ts:282-296 | A distance band with non-negative weights never costs more than its worst case |
| Steering.EvaluateHeading | light-cycle/src/lib/game/ai-player-store.ts:238-351 | The early-return scoring computes the heading's evaluation: the sentinel when disqualified, the look-ahead penalty on a coming crash, the weighted terms otherwise |
| Steering.SoonerIsWorse | light-cycle/src/lib/game/ai-player-store.ts:264-279 | The look-ahead penalty is monotone: an earlier crash scores no better than a later one |
| Steering.Leader | light-cycle/src/lib/game/ai-player-store.ts:223 | The index a stable descending sort puts first (skipping one index): a maximum, with every earlier entry strictly smaller |
| Steering.TopIndex | light-cycle/src/lib/game/ai-player-store.ts:223 | The first index of a maximal score, as the stable sort leaves it in front |
| Steering.SecondIndex | light-cycle/src/lib/game/ai-player.ts:113-119 | The runner-up after the stable sort: the first maximum among the other indices |
| Steering.Scores | light-cycle/src/lib/game/ai-player-store.ts:211-214 | One evaluation per candidate, each with that candidate's draw |
| Steering.TopIsBest | light-cycle/src/lib/game/ai-player-store.ts:223-226 | The top heading scores at least every non-reversing heading, and strictly more than those enumerated before it |
| Steering.BestHeading | light-cycle/src/lib/game/ai-player-store.ts:203-227 | The corrected arg-max never reverses |
| Steering.BestHeadingIsBest | light-cycle/src/lib/game/ai-player-store.ts:203-227 | The chosen heading scores at least every non-reversing heading and wins ties by enumeration order |
| Steering.BestHeadingAsWritten | light-cycle/src/lib/game/ai-player-store.ts:226 | The code as written: the arg-max, except that a winning Up becomes the current heading |
| Steering.ChooseHeading | light-cycle/src/lib/game/ai-player-store.ts:203-225 | The evaluation loop returns the corrected best heading |
| Steering.ChooseHeadingAsWritten | light-cycle/src/lib/game/ai-player-store.ts:203-227 | The evaluation loop with the `\|\| currentDir` fallback returns the heading the code as written picks |
| Steering.CentreTermNonNegative | light-cycle/src/lib/game/ai-player-store.ts:319-325 | Inside the arena the centre preference is non-negative |
| Steering.TrailDistanceNonNegative | light-cycle/src/lib/game/ai-player-store.ts:399-408 | With a Euclidean metric the trail distance is non-negative |
| Steering.WeightedFloor | light-cycle/src/lib/game/ai-player-store.ts:282-347 | For sound weights, the weighted terms of an in-arena step are never below the tuning's worst case |
| Steering.FreeHeadingBeatsSentinel | light-cycle/src/lib/game/ai-player-store.ts:238-351 | For sound weights, a heading that is not disqualified always scores above the disqualification sentinel |
| Steering.EscapeIsTaken | light-cycle/src/lib/game/ai-player-store.ts:203-351 | If some non-reversing heading is not disqualified, the best heading is not disqualified |
| Steering.AsWrittenEscapesUnlessUp | light-cycle/src/lib/game/ai-player-store.ts:203-351 | The same escape promise for the code as written, whenever the best heading is not Up or the cycle already heads Up |
| Steering.Widest | light-cycle/src/lib/game/ai-player-bulletproof.ts:122-147 | The first candidate with strictly greatest positive next-step wall distance, or the fallback with room 0 when none has room |
| Steering.SafestHeading | light-cycle/src/lib/game/ai-player-bulletproof.ts:122-147 | The candidate loop computes the widest candidate |
| Steering.EmergencyTurnIsWidest | light-cycle/src/lib/game/ai-player-panic.ts:74-98 | The emergency turn never reverses, leaves at least as much room to the wall as every non-reversing heading when any has room, and survives the heading setter unchanged |
| Steering.IntervalInRange | light-cycle/src/lib/game/ai-player-store.ts:433-445 | A difficulty's interval lies between the hard and easy intervals and is positive |
| AiStore.WeightsAreSound | light-cycle/src/lib/game/ai-player-store.ts:238-351 | The store opponent's constants keep every free heading above its -1000000 sentinel |
| AiStore.ScoresOfBlockedHeadings | light-cycle/src/lib/game/ai-player-store.ts:249-279 | A disqualified heading scores -1000000; a look-ahead crash at step k scores -100000-(20-k)*10000 |
| AiStore.StoreView | light-cycle/src/lib/game/ai-player-store.ts:238-247 | The evaluation uses the store's bounds unless their width is 0, and its own trail and the rival's position and trail from the store |
| AiStore.ArenaFrom | light-cycle/src/lib/game/ai-player-store.ts:61-68 | The movement guard uses the store's bounds when both are non-zero, the window otherwise |
| AiStore.Without | light-cycle/src/lib/game/ai-player-store.ts:164-170 | Removing a heading keeps exactly the other candidates |
| AiStore.FirstOtherIsQuarterTurn | light-cycle/src/lib/game/ai-player-store.ts:164-170 | The first candidate other than the current heading is a quarter turn |
| AiStore.ForcedTurnIsSafe | light-cycle/src/lib/game/ai-player-store.ts:137-176 | The forced turn never reverses; it keeps the current heading only with at least 300 of room, and otherwise picks the widest candidate or the first other one |
| AiStore.FalsyUpKeepsDoomedHeading | light-cycle/src/lib/game/ai-player-store.ts:226 | A concrete position where Up is the only free heading and the code as written keeps a heading that leaves the arena |
| AiStore.StoreAI.constructor | light-cycle/src/lib/game/ai-player-store.ts:12-25 | A new store opponent at its start, deciding every 5 ms, with the window written to the store's bounds |
| AiStore.StoreAI.UpdateGameState | light-cycle/src/lib/game/ai-player-store.ts:44-54 | The opponent publishes its position, heading and trail as player 2, alive, and nothing else in the store changes |
| AiStore.StoreAI.ForceSafeDirection | light-cycle/src/lib/game/ai-player-store.ts:137-176 | The heading becomes the forced turn and is recorded as the last decision |
| AiStore.StoreAI.MakeDecision | light-cycle/src/lib/game/ai-player-store.ts:178-201 | The heading the code as written picks (the best, or the current heading when the best is Up) is taken iff it differs from both the current heading and the last decision; otherwise heading and last decision are unchanged; stated both ways and as the damped pick (`Damped`) of the view before the call |
| AiStore.StoreAI.AiUpdate | light-cycle/src/lib/game/ai-player-store.ts:56-135 | Never reports a collision; the arena is re-read from the store; position and heading are the guarded step (`GuardedStep`): the move along the heading when the next position keeps at least 200 to the wall, otherwise no move and the forced turn; the trail gains the new position iff it moved; the last decision is kept after a move and becomes the forced turn otherwise; in single-player with no opponent a completed move adds the step to the distance and records the position, otherwise both are unchanged |
| AiStore.StoreAI.Decide | light-cycle/src/lib/game/ai-player-store.ts:27-35 | The timer gains delta and resets to 0 once it reaches the interval, so it ends below the interval; heading and last decision become exactly the damped best heading of the view before the frame when a decision is due, and are unchanged otherwise (`Decided`) |
| AiStore.StoreAI.DecideWhenDue | light-cycle/src/lib/game/ai-player-store.ts:32-35 | With the timer at or above the interval: the damped decision and a timer of 0; below it: timer, heading and last decision unchanged |
| AiStore.StoreAI.Update | light-cycle/src/lib/game/ai-player-store.ts:27-42 | After a frame the timer is exactly the advanced or reset timer and below the interval; no collision is reported; the store holds the pre-move snapshot of player 2 with the decided heading, and nothing else in it changed; position and heading are the guarded step along the decided heading; the trail gains the new position iff it moved; the last decision is the decided one after a move and the forced turn otherwise; the distance and last position change exactly as in AiUpdate |
| AiStore.StoreAI.UpdateGameBounds | light-cycle/src/lib/game/ai-player-store.ts:427-430 | The cached bounds and the store's bounds become the new ones |
| AiStore.StoreAI.SetDifficulty | light-cycle/src/lib/game/ai-player-store.ts:433-445 | The interval becomes 20, 10 or 5 ms for easy, medium, hard |
| AiBulletproof.WeightsAreSound | light-cycle/src/lib/game/ai-player-bulletproof.ts:240-356 | The bulletproof constants keep every free heading above its -1000000 sentinel |
| AiBulletproof.ScoresOfBlockedHeadings | light-cycle/src/lib/game/ai-player-bulletproof.ts:248-278 | A disqualified heading scores -1000000; a look-ahead crash at step k scores -100000-(15-k)*10000 |
| AiBulletproof.SpaceIsCapped | light-cycle/src/lib/game/ai-player-bulletproof.ts:358-382 | The open-space count is at most 1196 (four rays of at most 299) |
| AiBulletproof.BulletproofAI.constructor | light-cycle/src/lib/game/ai-player-bulletproof.ts:25-35 | A new bulletproof opponent at its start, deciding every 5 ms, not panicking, with wall distance 1000 recorded |
| AiBulletproof.BulletproofAI.ForceSafeDirection | light-cycle/src/lib/game/ai-player-bulletproof.ts:122-147 | The heading becomes the widest non-reversing candidate, recorded as both the last and the forced decision |
| AiBulletproof.BulletproofAI.PanicCheck | light-cycle/src/lib/game/ai-player-bulletproof.ts:149-168 | Records the wall distance; panics iff it is below 200; below 100 forces the widest heading and records it as last and forced decision, otherwise heading, last and forced decisions are unchanged (`Checked`) |
| AiBulletproof.BulletproofAI.MakeDecision | light-cycle/src/lib/game/ai-player-bulletproof.ts:170-193 | The heading the code as written picks (the best, or the current heading when the best is Up) is taken iff it differs from both the current heading and the last decision; otherwise heading and last decision are unchanged |
| AiBulletproof.BulletproofAI.AiUpdate | light-cycle/src/lib/game/ai-player-bulletproof.ts:54-120 | Position, heading and the returned flag are the guarded move (`Guarded`): within 150 of a wall the heading first becomes the widest one; a move ending with positive wall distance is kept and reports true, otherwise it is undone, a turn is forced and it reports false; the trail gains the new position iff a kept move changed it; last and forced decisions are kept only after a kept move that started at least 150 from a wall; in single-player a kept move adds its length and records the position, otherwise distance and last position are unchanged |
| AiBulletproof.BulletproofAI.SteerClear | light-cycle/src/lib/game/ai-player-bulletproof.ts:60-67 | The heading becomes the widest heading closer than 150 to a wall and is kept otherwise (`Heading`); the turn is recorded as last and forced decision |
| AiBulletproof.BulletproofAI.KeepOrUndo | light-cycle/src/lib/game/ai-player-bulletproof.ts:85-119 | Reports a kept move iff the new position has positive wall distance; otherwise the position returns to the start and the turn from there is forced and recorded; a kept move is recorded |
| AiBulletproof.BulletproofAI.Record | light-cycle/src/lib/game/ai-player-bulletproof.ts:94-117 | The trail gains the position iff it differs from the start; in single-player the distance grows by the step and the position is remembered, otherwise both are unchanged |
| AiBulletproof.BulletproofAI.Decide | light-cycle/src/lib/game/ai-player-bulletproof.ts:37-48 | The timer gains delta and resets once it reaches the interval, so it ends below the interval; the panic check runs every frame (wall distance, panic flag, forced turn below 100); heading and last decision then become the damped best heading when a decision is due and stay as the panic check left them otherwise (`Decided`) |
| AiBulletproof.BulletproofAI.DecideWhenDue | light-cycle/src/lib/game/ai-player-bulletproof.ts:45-48 | With the timer at or above the interval: the damped decision from the current view and a timer of 0; below it: timer, heading and last decision unchanged |
| AiBulletproof.BulletproofAI.Update | light-cycle/src/lib/game/ai-player-bulletproof.ts:37-52 | After a frame the timer is exactly the advanced or reset timer and below the interval; wall distance and panic reflect the pre-move position; position, heading and the reported flag are the guarded move (`Guarded`) from the heading `Decided` gives; the trail gains the new position iff a kept move changed it; distance and last position change as in AiUpdate; the last decision is the decided one only after a kept move that started at least 150 from a wall; a kept move ends strictly inside the arena |
| AiBulletproof.BulletproofAI.UpdateOpponentInfo | light-cycle/src/lib/game/ai-player-bulletproof.ts:429-433 | Records the opponent's position and trail |
| AiBulletproof.BulletproofAI.UpdateGameBounds | light-cycle/src/lib/game/ai-player-bulletproof.ts:435-438 | Records the bounds |
| AiBulletproof.BulletproofAI.SetDifficulty | light-cycle/src/lib/game/ai-player-bulletproof.ts:440-452 | The interval becomes 20, 10 or 5 ms |
| AiPanic.WeightsAreSound | light-cycle/src/lib/game/ai-player-panic.ts:170-286 | The panic constants keep every free heading above its -100000 sentinel |
| AiPanic.DecisionEscapes | light-cycle/src/lib/game/ai-player-panic.ts:135-286 | If some non-reversing heading is free, the panic opponent's best heading is free |
| AiPanic.PanicAI.constructor | light-cycle/src/lib/game/ai-player-panic.ts:24-34 | A new panic opponent at its start, deciding every 10 ms, not panicking |
| AiPanic.PanicAI.ForceEmergencyTurn | light-cycle/src/lib/game/ai-player-panic.ts:74-98 | The heading becomes the widest non-reversing candidate and is recorded as the last decision |
| AiPanic.PanicAI.PanicCheck | light-cycle/src/lib/game/ai-player-panic.ts:53-72 | Records the wall distance; panics iff it is below 200; below 100 turns away and records the turn, otherwise heading and last decision are unchanged (`Checked`) |
| AiPanic.PanicAI.MakeDecision | light-cycle/src/lib/game/ai-player-panic.ts:100-123 | The heading the code as written picks (scored in panic mode when panicking; the current heading when the best is Up) is taken iff it differs from both the current heading and the last decision; otherwise heading and last decision are unchanged |
| AiPanic.PanicAI.Decide | light-cycle/src/lib/game/ai-player-panic.ts:36-48 | The timer gains delta and resets once it reaches the interval; panic reflects the wall distance; heading and last decision are the panic check's outcome, then the damped pick (scored in panic mode when panicking) when a decision is due (`Decided`) |
| AiPanic.PanicAI.DecideWhenDue | light-cycle/src/lib/game/ai-player-panic.ts:44-47 | With the timer at or above the interval: the damped decision and a timer of 0; below it: timer, heading and last decision unchanged |
| AiPanic.PanicAI.Update | light-cycle/src/lib/game/ai-player-panic.ts:36-51 | After a frame the timer is exactly the advanced or reset timer; the vehicle moves along the heading `Decided` gives, the trail gains the new position iff it moved, in single-player the distance grows by the speed and 5 points are added iff a multiple of 50 was crossed, and the collision is the own-trail test; panic reflects the pre-move wall distance |
| AiPanic.PanicAI.UpdateOpponentInfo | light-cycle/src/lib/game/ai-player-panic.ts:359-363 | Records the opponent's position and trail |
| AiPanic.PanicAI.UpdateGameBounds | light-cycle/src/lib/game/ai-player-panic.ts:365-368 | Records the bounds |
| AiPanic.PanicAI.SetDifficulty | light-cycle/src/lib/game/ai-player-panic.ts:370-382 | The interval becomes 30, 20 or 10 ms |
| AiUltra.WeightsAreSound | light-cycle/src/lib/game/ai-player-ultra.ts:128-244 | The ultra constants keep every free heading above its -50000 sentinel |
| AiUltra.DecisionEscapes | light-cycle/src/lib/game/ai-player-ultra.ts:93-244 | If some non-reversing heading is free, the ultra opponent's best heading is free |
| AiUltra.UltraAI.constructor | light-cycle/src/lib/game/ai-player-ultra.ts:23-33 | A new ultra opponent at its start, deciding every 20 ms, not in emergency mode |
| AiUltra.UltraAI.MakeDecision | light-cycle/src/lib/game/ai-player-ultra.ts:49-81 | Emergency mode is set iff the wall is closer than 150; the heading the code as written picks (the current heading when the best is Up) is taken iff it differs from both the current heading and the last decision; otherwise heading and last decision are unchanged; stated both ways and as the damped pick (`Damped`) |
| AiUltra.UltraAI.Decide | light-cycle/src/lib/game/ai-player-ultra.ts:35-44 | The timer gains delta and resets once it reaches the interval; heading and last decision become the damped pick when a decision is due and are unchanged otherwise (`Decided`); emergency mode reflects the wall distance when a decision is due and is unchanged otherwise |
| AiUltra.UltraAI.DecideWhenDue | light-cycle/src/lib/game/ai-player-ultra.ts:40-43 | With the timer at or above the interval: the damped decision, emergency mode from the wall distance and a timer of 0; below it: all unchanged |
| AiUltra.UltraAI.Update | light-cycle/src/lib/game/ai-player-ultra.ts:35-47 | After a frame the timer is exactly the advanced or reset timer; the vehicle moves along the heading `Decided` gives, the trail gains the new position iff it moved, in single-player the distance grows by the speed and 5 points are added iff a multiple of 50 was crossed, and the collision is the own-trail test |
| AiUltra.UltraAI.UpdateOpponentInfo | light-cycle/src/lib/game/ai-player-ultra.ts:317-321 | Records the opponent's position and trail |
| AiUltra.UltraAI.UpdateGameBounds | light-cycle/src/lib/game/ai-player-ultra.ts:323-326 | Records the bounds |
| AiUltra.UltraAI.SetDifficulty | light-cycle/src/lib/game/ai-player-ultra.ts:328-340 | The interval becomes 50, 30 or 20 ms |
| AiSimple.WeightsAreSound | light-cycle/src/lib/game/ai-player-simple.ts:130-215 | The simple constants keep every free heading above its -10000 sentinel |
| AiSimple.LookAheadIsFlat | light-cycle/src/lib/game/ai-player-simple.ts:152-183 | Any crash within 5 steps scores a flat -2000; a clear path scores the wall, trail and centre terms plus the jitter |
| AiSimple.SimpleAI.constructor | light-cycle/src/lib/game/ai-player-simple.ts:22-32 | A new simple opponent at its start, deciding every 30 ms |
| AiSimple.SimpleAI.MakeDecision | light-cycle/src/lib/game/ai-player-simple.ts:48-83 | Within 80 of a wall a differing heading picked as written (the current heading when the best is Up) is taken at once without damping; otherwise the damping rule applies to a fresh pick (both stated exactly as `Chosen`); within 80 of a wall the resulting heading is free whenever some non-reversing heading is and neither best heading is an Up the cycle is not already on |
| AiSimple.SimpleAI.EscapeWhenPossible | light-cycle/src/lib/game/ai-player-simple.ts:95-215 | If some non-reversing heading is free and the best heading is not an Up the cycle is not already on, the simple opponent's heading picked as written is free |
| AiSimple.FalsyUpKeepsDoomedHeading | light-cycle/src/lib/game/ai-player-simple.ts:118 | A concrete position within 80 of a wall where Up is the only free heading and both picks as written keep a heading that leaves the arena |
| AiSimple.SimpleAI.Decide | light-cycle/src/lib/game/ai-player-simple.ts:34-43 | The timer gains delta and resets once it reaches the interval, so it ends below the interval; heading and last decision become `Chosen` when a decision is due and are unchanged otherwise (`Decided`) |
| AiSimple.SimpleAI.DecideWhenDue | light-cycle/src/lib/game/ai-player-simple.ts:39-42 | With the timer at or above the interval: the decision `Chosen` gives and a timer of 0; below it: timer, heading and last decision unchanged |
| AiSimple.SimpleAI.Update | light-cycle/src/lib/game/ai-player-simple.ts:34-46 | After a frame the timer is exactly the advanced or reset timer; the vehicle moves along the heading `Decided` gives, the trail gains the new position iff it moved, in single-player the distance grows by the speed and 5 points are added iff a multiple of 50 was crossed, and the collision is the own-trail test |
| AiSimple.SimpleAI.UpdateOpponentInfo | light-cycle/src/lib/game/ai-player-simple.ts:262-266 | Records the opponent's position and trail |
| AiSimple.SimpleAI.UpdateGameBounds | light-cycle/src/lib/game/ai-player-simple.ts:268-271 | Records the bounds |
| AiSimple.SimpleAI.SetDifficulty | light-cycle/src/lib/game/ai-player-simple.ts:273-285 | The interval becomes 100, 50 or 30 ms |
| AiAdvanced.AheadTerm | light-cycle/src/lib/game/ai-player.ts:143-158 | The look-ahead term lies between -5000 (a crash at step 1) and +1000 (a clear path) |
| AiAdvanced.EvaluateAdvanced | light-cycle/src/lib/game/ai-player.ts:131-198 | The scoring computes the advanced evaluation: -10000 for an immediate collision, otherwise the look-ahead, wall, trail, centre and space terms |
| AiAdvanced.CentreDistanceBound | light-cycle/src/lib/game/ai-player.ts:278-282 | In a compact arena an in-arena point is at most three half-sides from the centre |
| AiAdvanced.CentreScoreRange | light-cycle/src/lib/game/ai-player.ts:185-188 | In a compact arena the centre term lies in [-20, 10] |
| AiAdvanced.FreeHeadingFloor | light-cycle/src/lib/game/ai-player.ts:131-198 | In a compact arena a heading without an immediate collision scores above -7500, so above the -10000 of a colliding one |
| AiAdvanced.AdvancedScores | light-cycle/src/lib/game/ai-player.ts:101-104 | One advanced evaluation per candidate with its draw |
| AiAdvanced.Pick | light-cycle/src/lib/game/ai-player.ts:93-120 | The corrected 95/5 pick never reverses |
| AiAdvanced.PickAsWritten | light-cycle/src/lib/game/ai-player.ts:113-119 | The code as written: the pick, except that a picked Up becomes the current heading |
| AiAdvanced.PickIsTopOrRunnerUp | light-cycle/src/lib/game/ai-player.ts:113-119 | A roll below 0.95 picks the first maximum; otherwise the runner-up, which scores at least every heading but the leader |
| AiAdvanced.EscapeIsTaken | light-cycle/src/lib/game/ai-player.ts:93-198 | In a compact arena with a roll below 0.95, if some non-reversing heading is free, the pick is free |
| AiAdvanced.AsWrittenEscapesUnlessUp | light-cycle/src/lib/game/ai-player.ts:93-198 | The same promise for the pick as written, whenever the pick is not Up or the cycle already heads Up |
| AiAdvanced.ChoosePick | light-cycle/src/lib/game/ai-player.ts:93-119 | The evaluation loop computes the corrected pick |
| AiAdvanced.ChoosePickAsWritten | light-cycle/src/lib/game/ai-player.ts:93-120 | The evaluation loop with the `\|\| currentDir` fallback returns the pick of the code as written |
| AiAdvanced.AdvancedAI.constructor | light-cycle/src/lib/game/ai-player.ts:34-44 | A new advanced opponent at its start, deciding every 30 ms, with margin 50, aggression 0.6 and look-ahead 200 |
| AiAdvanced.AdvancedAI.MakeDecision | light-cycle/src/lib/game/ai-player.ts:60-81 | The pick as written (the current heading when the pick is Up) is taken iff it differs from both the current heading and the last decision; otherwise heading and last decision are unchanged; stated both ways and as the damped pick (`Damped`) |
| AiAdvanced.AdvancedAI.Decide | light-cycle/src/lib/game/ai-player.ts:46-55 | The timer gains delta and resets once it reaches the interval, so it ends below the interval; heading and last decision become the damped pick when a decision is due and are unchanged otherwise (`Decided`) |
| AiAdvanced.AdvancedAI.DecideWhenDue | light-cycle/src/lib/game/ai-player.ts:51-54 | With the timer at or above the interval: the damped pick and a timer of 0; below it: timer, heading and last decision unchanged |
| AiAdvanced.AdvancedAI.Update | light-cycle/src/lib/game/ai-player.ts:46-58 | After a frame the timer is exactly the advanced or reset timer; the vehicle moves along the heading `Decided` gives, the trail gains the new position iff it moved, in single-player the distance grows by the speed and 5 points are added iff a multiple of 50 was crossed, and the collision is the own-trail test |
| AiAdvanced.AdvancedAI.UpdateOpponentInfo | light-cycle/src/lib/game/ai-player.ts:291-295 | Records the opponent's position and trail |
| AiAdvanced.AdvancedAI.UpdateGameBounds | light-cycle/src/lib/game/ai-player.ts:297-300 | Records the bounds |
| AiAdvanced.AdvancedAI.SetDifficulty | light-cycle/src/lib/game/ai-player.ts:302-323 | The interval becomes 150, 80 or 40 ms, and aggression, margin and look-ahead take their per-level values |
| GameStore.InitialStateIsIdle | light-cycle/src/lib/stores/game-state.ts:31-53 | Not playing, not paused, not over; score 0, no winner, no opponent, bounds 0x0; player 1 heads right and player 2 left, both alive with empty trails |
| GameStore.UpdateGameBounds | light-cycle/src/lib/stores/game-state.ts:58-64 | Only the bounds and the timestamp change |
| GameStore.UpdatePlayer1Info | light-cycle/src/lib/stores/game-state.ts:66-77 | Only player 1's record and the timestamp change |
| GameStore.UpdatePlayer2Info | light-cycle/src/lib/stores/game-state.ts:79-90 | Only player 2's record and the timestamp change |
| GameStore.SetPlayer1Alive | light-cycle/src/lib/stores/game-state.ts:92-101 | Only player 1's alive flag and the timestamp change |
| GameStore.SetPlayer2Alive | light-cycle/src/lib/stores/game-state.ts:103-112 | Only player 2's alive flag and the timestamp change |
| GameStore.PlayerUpdatesCommute | light-cycle/src/lib/stores/game-state.ts:66-90 | Updating player 1 and player 2 in either order gives the same state |
| GameStore.AliveOverridesInfo | light-cycle/src/lib/stores/game-state.ts:66-112 | Setting a player's alive flag after an info update equals the info update with that flag |
| GameStore.CleanupGame | light-cycle/src/lib/stores/game-state.ts:114-138 | The result is the initial state, whatever came before |
| GameStore.CleanupIsIdempotent | light-cycle/src/lib/stores/game-state.ts:114-138 | Cleaning up twice is cleaning up once |
| GameStore.RestartBegin | light-cycle/src/lib/stores/game-state.ts:145-151 | The first write of a restart is the initial state marked as resetting |
| GameStore.RestartForgetsTheMatch | light-cycle/src/lib/stores/game-state.ts:145-151 | The first write does not depend on the previous match: it is resetting, scores 0 and is not playing |
| GameStore.RestartFinish | light-cycle/src/lib/stores/game-state.ts:155-179 | The deferred write is playing, not resetting, not over, score 0, no winner, with a human opponent for local multiplayer, a computer for the AI mode and none otherwise |
| GameStore.Store.constructor | light-cycle/src/lib/stores/game-state.ts:55 | The store starts with the initial state |
| Touch.Classify | light-cycle/src/lib/game/touch-controller.ts:30-41 | No swipe iff both movements are below 30; a swipe is horizontal only with the larger horizontal part, vertical on ties, signed as on screen |
| Touch.ClassifyIsOnto | light-cycle/src/lib/game/touch-controller.ts:35-41 | A long movement clearly along one axis is that axis's swipe |
| Touch.ClassifyIsOdd | light-cycle/src/lib/game/touch-controller.ts:35-41 | Reversing the movement gives the opposite swipe |
| Touch.TouchController.constructor | light-cycle/src/lib/game/touch-controller.ts:2-12 | No start point is recorded |
| Touch.TouchController.HandleTouchStart | light-cycle/src/lib/game/touch-controller.ts:14-18 | The touch becomes the start point |
| Touch.TouchController.HandleTouchMove | light-cycle/src/lib/game/touch-controller.ts:20-46 | No swipe while a start coordinate is 0; otherwise the classified movement; a swipe clears the start, no swipe keeps it |
| Engine.OffScreenMeansNoRoom | light-cycle/src/lib/game/engine.ts:101-111 | The boundary test is true iff the wall distance is negative, so edge points are in play |
| Engine.ScreenIsClosedArenaIsNot | light-cycle/src/lib/game/engine.ts:101-111 | The bottom-right corner is in play for the engine but outside the opponents' arena; everything off-screen is off-arena |
| Engine.HeadOnIsCloserThanTen | light-cycle/src/lib/game/engine.ts:171-179 | The head-on test is true iff the two vehicles are less than 10 apart |
| Engine.Verdict | light-cycle/src/lib/game/engine.ts:113-169 | The first failing check decides: player 2 wins iff player 1 crashed, or (with a rival that survived) player 1 is on its trail; player 1 wins iff the rival crashed or player 2 is on player 1's trail first; a draw only for a head-on meeting after all else passed |
| Engine.CollisionVerdict | light-cycle/src/lib/game/engine.ts:181-209 | The standalone check calls a head-on meeting a draw first, then player 1 on player 2's trail, then the converse |
| Engine.RefereesDifferOnlyOnHeadOn | light-cycle/src/lib/game/engine.ts:150-209 | The two referees agree except when a head-on meeting coincides with a trail hit |
| Engine.GameOver | light-cycle/src/lib/game/engine.ts:440-449 | The game stops, is over and records the winner; nothing else changes |
| Engine.KeyedIsOneRequest | light-cycle/src/lib/game/engine.ts:65-92 | With distinct bindings a keydown is at most one heading request and never reverses |
| Engine.SharedKeyReverses | light-cycle/src/lib/game/engine.ts:65-92 | A key bound to both up and left turns a right-bound cycle around in one press |
| Engine.ArrowsAreDistinct | light-cycle/src/lib/game/engine.ts:65-92 | The arrow bindings are distinct |
| Engine.OppositeSwipesOppositeHeadings | light-cycle/src/lib/game/engine.ts:451-471 | Opposite swipes request opposite headings, so a swipe back is refused |
| Engine.Press | light-cycle/src/lib/game/engine.ts:65-92 | A keydown applies the bound requests to the vehicle in order |
| Engine.Round | light-cycle/src/lib/game/engine.ts:354-368 | Rounding half up: the nearest integer, halves going up |
| Engine.ChannelsOfPack | light-cycle/src/lib/game/engine.ts:354-368 | Packing three bytes gives a 24-bit colour whose channels are those bytes |
| Engine.PackOfChannels | light-cycle/src/lib/game/engine.ts:354-368 | A 24-bit colour is the packing of its channels |
| Engine.Mix | light-cycle/src/lib/game/engine.ts:354-368 | A mixed channel lies between its ends and equals them at t=0 and t=1 |
| Engine.LerpColor | light-cycle/src/lib/game/engine.ts:354-368 | The result is a 24-bit colour whose each channel is the mix of the two colours' channels |
| Engine.LerpColorEnds | light-cycle/src/lib/game/engine.ts:354-368 | t=0 gives the first colour and t=1 the second, for 24-bit colours |
| Engine.GameEngine.constructor | light-cycle/src/lib/game/engine.ts:11-20 | A new engine has no vehicles and is not ticking |
| Engine.GameEngine.HandleGameOver | light-cycle/src/lib/game/engine.ts:440-449 | Ticking stops and the store gets the game-over write |
| Engine.GameEngine.TickPlayer1 | light-cycle/src/lib/game/engine.ts:122-127 | Player 1 moves; it crashed iff its own trail or the screen edge stopped it; only the score may change in the store, and only in single-player scoring |
| Engine.GameEngine.TickPlayer2 | light-cycle/src/lib/game/engine.ts:137-142 | Player 2 moves and crashed iff the screen edge, or for a human its own trail, stopped it; a human keeps its heading, moves its speed, and in single-player scoring gains distance and 5 points per multiple of 50; the computer's frame is stated in full: the guarded step along the decided heading, the published pre-move snapshot, the timer, the arena, the last decision, the distance and last position; only player 2's record, the score and the timestamp may change in the store |
| Engine.GameEngine.RivalFrame | light-cycle/src/lib/game/engine.ts:137-167 | After player 1 survived: the rival's tick, the cross-trail and head-on checks, and the game-over write iff the verdict is decided |
| Engine.GameEngine.CrossChecks | light-cycle/src/lib/game/engine.ts:152-166 | Once both cycles survived their moves: player 1 on player 2's trail ends the match for player 2, else player 2 on player 1's trail ends it for player 1, else a head-on meeting is a draw; with no finding nothing changes |
| Engine.GameEngine.GameLoop | light-cycle/src/lib/game/engine.ts:113-169 | Nothing changes without player 1, when paused or when over; otherwise the match ends exactly when the verdict is decided, with that winner; the score changes only in single-player scoring; player 2 does not move after player 1 crashed; the surviving players' snapshots are published |
| Engine.GameEngine.RunFrame | light-cycle/src/lib/game/engine.ts:120-169 | In a running match (player 1 present, not paused, not over) the match ends exactly when the verdict is decided, with that winner; the score changes only in single-player scoring; player 2 does not move after player 1 crashed; the surviving players' snapshots are published |
| Engine.GameEngine.CheckPlayerCollision | light-cycle/src/lib/game/engine.ts:181-209 | The standalone check reports the draw-first verdict and writes game over iff there is one |
| Engine.GameEngine.HandleKeydown | light-cycle/src/lib/game/engine.ts:65-92 | Player 1 listens to the arrows except in local multiplayer, where it has its own keys; player 2 listens only in local multiplayer |
| Engine.GameEngine.HandleSwipe | light-cycle/src/lib/game/engine.ts:451-471 | A swipe requests its heading for player 1; player 2 is untouched |
| Engine.GameEngine.StartGame | light-cycle/src/lib/game/engine.ts:211-318 | Player 1 starts at (100, h/2) heading right; local multiplayer adds a human at (w-200, h/2) heading left; the AI mode adds a store opponent at medium difficulty; single-player keeps whatever player 2 was; the store's bounds become the screen |
| Engine.GameEngine.StopGame | light-cycle/src/lib/game/engine.ts:320-352 | All vehicles are dropped and ticking stops |

## Left out

- Rendering. All PIXI drawing is out: the application, containers, trail graphics, rotation, particles, the background grid and the graphics halves of `startGame` and `stopGame`. The same goes for the canvas resize handler.
- Audio (`audio/manager.ts`, `audio-state.ts`): media I/O.
- Settings persistence (`settings.ts`). The only effect on the core is the speed overwrite on a settings change, which is `Vehicle.Player.ApplySettings`. The colour overwrite is rendering.
- The service worker, device and debug helpers, the test set-up and the build configuration: none is part of the game rules.
- Console logging throughout. `TouchController.destroy` and the listener registration: DOM plumbing.
- `window.innerWidth/innerHeight`, `Date.now()`, `Math.random()` and the ticker's delta are parameters. `Math.sqrt` is the `Metric` parameter, characterised by `Euclidean`.
- Floating point: coordinates and scores are exact reals. Rounding effects of IEEE arithmetic are not modelled.
- The `setTimeout` between the two writes of `restartGame` is two functions. So is `startGame`'s `await` and animation-frame polling. The engine receives the game mode as a parameter.
- The settings' game-mode type lists only single and local multiplayer, but the engine compares it with an AI mode. `GameStore.GameMode` has all three.
- Engine.GameEngine.GameLoop: the engine's own player is only ever the store opponent in the AI mode, as `startGame` builds it. The other opponent classes are modelled on their own and not wired into the engine, as in the source.
- AiBulletproof.BulletproofAI.AiUpdate: it returns true on a successful move. Its `update` passes that back as a collision report. No engine path uses this class, so the effect is stated but not connected.
- AiStore.StoreAI.AiUpdate: the distance counter it advances is stated in its contract, but nothing in this class or the engine reads it.
- AiAdvanced.EscapeIsTaken: proved only for arenas at most twice as long as wide, and only for a roll below 0.95. Outside that, the unbounded centre term or the 5% runner-up pick can choose a blocked heading.
- AiStore.StoreAI.MakeDecision and the other decisions (bulletproof, panic, ultra, simple, advanced) follow the code as written, including the Up fallback, and promise no survival of their own. The survival theorems are about the corrected best heading (`Steering.EscapeIsTaken`), and about the pick as written only when the Up fallback does not bite; damping can also keep a doomed current heading.
- AiSimple.SimpleAI.MakeDecision: its survival clause within 80 of a wall holds only when neither best heading is an Up the cycle is not already on. `AiSimple.FalsyUpKeepsDoomedHeading` gives a position where the fallback keeps a doomed heading.
- Vehicle.Player.constructor: the subscription's immediate overwrite of the speed by the current settings is folded into the speed argument, because every call site passes the settings' player speed.
- AiAdvanced.AdvancedAI.SetDifficulty: the margin, aggression and look-ahead fields it sets are never read by the scoring. They are stored and stated only.
- Engine.LerpColor: only for integer colours and t in [0, 1]. Outside that range the source's channel arithmetic leaves 0..255 and JavaScript's bit operations on the fractional or negative values are not modelled. The function is not called anywhere in the game.
- The particle colours and every use of `Math.cos`/`Math.sin` are left out, because they are rendering.

## Findings

| source | as written | input that shows it | evidently intended | confidence | as-written member | corrected member |
|---|---|---|---|---|---|---|
| light-cycle/src/lib/game/ai-player-store.ts:226 | `directionScores[0]?.direction \|\| currentDir` maps a winning Up (value 0, falsy) to the current heading. The same line is in every variant (e.g. ai-player.ts:119, ai-player-panic.ts:158, ai-player-ultra.ts:116, ai-player-simple.ts:118) | In a 1000x1000 arena, the opponent is at (2, 998), heading left, with speed 5 and empty trails. Up is the only heading that stays in the arena; left and down leave it. The code keeps left and crashes | Return the top-scoring heading, Up included (a `??` fallback, which applies only to a missing entry) | not executed | AiStore.FalsyUpKeepsDoomedHeading, AiSimple.FalsyUpKeepsDoomedHeading | Steering.EscapeIsTaken |
