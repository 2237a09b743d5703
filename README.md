# Platform jump game: a verified model of the frame update

This project models the game logic of a small Android platformer. A player
box falls under gravity and jumps on touch. Platforms scroll to the left and
the player stands on them. A player who falls below the view ends the game.
The score grows by at most one point per frame, and only when strictly more
than 1000 ms have passed since the last point. The clock is not reset on
restart, so time spent in game over counts toward the first point after it.

The model has four modules:

- `Physics` (physics.dfy) holds the value-level arithmetic of a player and of a platform:
  - `update` and `jump`;
  - the two `collidesWith` tests and `isAbove`;
  - the snap that stands the player on a platform.

  It also holds an independent reference for the collision tests, which is the strict overlap of two rectangles on both axes.
- `Simulation` (simulation.dfy) is the pure state machine. One `World` value holds
  the view's fields. `Tick` is one call of `update()`, and `Touch` is
  `onTouchEvent`. The lemmas state what one frame does and what any run of frames
  and touches does.
- `Game` (game.dfy) holds the classes of GameView.java: `GameView` with its nested
  `Player` and `Platform`. Their fields change in place. The view's
  constructor and its methods `Update`, `MoveAll`, `UpdateScore`, `GameOver`,
  `RestartGame` and `OnTouchEvent` are proved to leave `Model()` equal to the
  `Simulation` function applied to `old(Model())`. The methods for the parts
  of a frame (both loops, their turns and steps, and spawning) are stated on
  the player's state and the list of platform states, and the nested classes'
  `Update` and `Jump` on their own `State()`. The first loop of `update()`, which removes platforms
  through the iterator, is a `while` loop that deletes from the platform list in
  place. The second loop is a `for` loop over the same list. `GameView.Play` drives a view through any sequence of frames and touches and is proved to follow `Simulation.Run`, so the lemmas about runs hold of the objects.
- `Standalone` (standalone.dfy) holds the top-level `Player` class of Player.java.

Coordinates are `real`. The constants are exact: gravity 1, jump strength −15,
platform speed 5, player 100 × 100, platform 200 × 50. Each frame reads the
outside world, and this arrives as a `Frame` parameter:

- the two `Math.random()` draws;
- `getWidth()` and `getHeight()`;
- `System.currentTimeMillis()`.

`dbHelper.saveScore` is recorded in a ghost log of saved scores (`savedScores`,
`World.saved`).

What the proofs establish, in the program's terms:

- The landing test of the first loop (`collidesWith && isAbove`) can never hold,
  because `isAbove` and `collidesWith` exclude each other. So the first loop
  never changes the player.
- The first loop keeps exactly the platforms whose first move leaves them on
  screen, in their old order. A platform that survives a frame has moved 10
  units to the left, because it moves once in each loop.
- Whenever the second loop snaps the player, the player stands on that platform's
  top edge at rest and no longer collides with it.
- A frame adds at most one platform. That platform goes after all the others, at
  the right edge, at a height in [400, 600).
- Game over is decided after both loops. It saves exactly one score, the one from
  before the frame's score step.
- The score never decreases, restarts included, and grows by at most one per
  frame. Over any run of events, the saved scores are sorted, none exceeds the
  live score, and exactly one is saved per game that ends.

Behaviour of the code that the model keeps:

- Platforms move twice per frame, so 10 units.
- The landing branch is dead.
- A restart keeps `playerScore` and `lastTime`.
- The score step needs strictly more than 1000 ms.
- A touch during game over restarts the game.
- A touch otherwise jumps, even in mid-air.
- `saveScore` receives the score from before the frame's increment.

## Model

| member | source | states |
|---|---|---|
| `Physics.BoxCollidesIsOverlap` | app/src/main/java/com/landrykole/platformjumpgame/Player.java:20-25 | the top-level `collidesWith` holds iff the open intervals (x, x+100)/(p.x, p.x+200) and (y, y+100)/(p.y, p.y+50) both overlap |
| `Physics.CollidesIsFeetOverlap` | app/src/main/java/com/landrykole/platformjumpgame/GameView.java:232-237 | the nested `collidesWith` holds iff the player's bottom edge (a zero-height box) overlaps the platform box: only the feet count |
| `Physics.CollidesImpliesBoxCollides` | app/src/main/java/com/landrykole/platformjumpgame/GameView.java:236 | the nested collision test implies the top-level one (`y + 100 < p.y + 50` implies `y < p.y + 50`) |
| `Physics.BoxCollidesAdmitsMore` | app/src/main/java/com/landrykole/platformjumpgame/Player.java:24 | the converse fails: some player and platform collide for the top-level test but not for the nested one |
| `Physics.AboveExcludesCollision` | app/src/main/java/com/landrykole/platformjumpgame/GameView.java:232-243 | `isAbove` excludes both collision tests, so the landing condition `collidesWith && isAbove` is unsatisfiable |
| `Physics.IsAboveIsFeetOnTop` | app/src/main/java/com/landrykole/platformjumpgame/Player.java:27-31 | `isAbove` holds iff the player's and the platform's boxes overlap horizontally and the player's bottom edge is at or above the platform's top edge |
| `Physics.AboveOverlapsHorizontally` | app/src/main/java/com/landrykole/platformjumpgame/Player.java:21-22 | `isAbove` implies the two horizontal conjuncts of `collidesWith` |
| `Physics.SnapResolves` | app/src/main/java/com/landrykole/platformjumpgame/GameView.java:85-88 | after a snap on a colliding platform the player keeps its column, stands exactly on the top edge with velocity 0, no longer collides with it and is above it |
| `Physics.JumpThenStep` | app/src/main/java/com/landrykole/platformjumpgame/GameView.java:221-230 | a jump followed by one update gives velocity −14 and a position 15 units higher |
| `Physics.StepNClosedForm` | app/src/main/java/com/landrykole/platformjumpgame/GameView.java:221-226 | n updates without jump or landing: x unchanged, velocity + n, y + n·v + n(n−1)/2 |
| `Physics.SpawnFallsOffScreen` | app/src/main/java/com/landrykole/platformjumpgame/GameView.java:216-226 | a freshly spawned player that never lands is below y = 1000 after 33 updates but not after 32 |
| `Physics.MoveNClosedForm` | app/src/main/java/com/landrykole/platformjumpgame/GameView.java:255-257 | n platform updates move it 5n to the left and keep its height |
| `Physics.SeedPlatformAfterHundredMoves` | app/src/main/java/com/landrykole/platformjumpgame/GameView.java:34 | the seed platform at (500, 600) reaches x = 0 after 100 updates |
| `Simulation.Resolve` | app/src/main/java/com/landrykole/platformjumpgame/GameView.java:85-88 | one step of the second loop: a colliding player is stood on the top edge at rest, a non-colliding one is untouched; either way the column is kept and the result does not collide |
| `Simulation.FirstPassFromKeeps` | app/src/main/java/com/landrykole/platformjumpgame/GameView.java:67-80 | the first loop from any index leaves the player unchanged and appends, in order, the platforms whose first move keeps them on screen, moved once |
| `Simulation.FirstPassKeepsPlayer` | app/src/main/java/com/landrykole/platformjumpgame/GameView.java:67-80 | the whole first loop returns the player unchanged and exactly the kept platforms, moved once |
| `Simulation.KeptMembers` | app/src/main/java/com/landrykole/platformjumpgame/GameView.java:77-79 | a platform survives the first loop iff it was present and `x + 200 < 0` fails after its move |
| `Simulation.KeptAppend` | app/src/main/java/com/landrykole/platformjumpgame/GameView.java:69-80 | removal keeps relative order: filtering a concatenation filters each part |
| `Simulation.KeptShrinks` | app/src/main/java/com/landrykole/platformjumpgame/GameView.java:77-79 | the first loop never lengthens the list |
| `Simulation.SecondPassShape` | app/src/main/java/com/landrykole/platformjumpgame/GameView.java:82-89 | the second loop moves every platform once more in place and leaves the player either untouched or at rest on the top edge of one of the platforms, in its old column |
| `Simulation.TickPlatforms` | app/src/main/java/com/landrykole/platformjumpgame/GameView.java:67-95 | after a frame the list is the kept platforms each 10 units further left, in their old order, followed by a spawned platform at x = width with 400 ≤ y < 600 exactly when the spawn draw is below 0.02 |
| `Simulation.TickAddsAtMostOne` | app/src/main/java/com/landrykole/platformjumpgame/GameView.java:91-95 | a frame adds at most one platform |
| `Simulation.TickPlayer` | app/src/main/java/com/landrykole/platformjumpgame/GameView.java:66-89 | after a frame the player is either just updated or at rest, in its old column, on the top edge of a kept platform |
| `Simulation.TickGameOver` | app/src/main/java/com/landrykole/platformjumpgame/GameView.java:97-100 | game over is decided on the player's height after both loops; it sets `isGameOver`, clears `isPlaying` and saves exactly one score, the pre-increment one; otherwise the flags and the log are untouched |
| `Simulation.TickScore` | app/src/main/java/com/landrykole/platformjumpgame/GameView.java:102-107 | the score grows by one and `lastTime` becomes now iff more than 1000 ms have passed; otherwise both are unchanged |
| `Simulation.TouchOutcome` | app/src/main/java/com/landrykole/platformjumpgame/GameView.java:181-203 | a press restarts a finished game to player (100, 500, 0) and the single platform (500, 600) keeping score, clock and log; otherwise it sets the velocity to −15 and marks the game playing, and changes nothing else (position, platforms, game-over flag, score, clock, log); a non-press changes nothing |
| `Simulation.RunScore` | app/src/main/java/com/landrykole/platformjumpgame/GameView.java:102-107 | over any run of frames and touches the score never decreases and grows by at most the number of frames |
| `Simulation.InitialConsistent` | app/src/main/java/com/landrykole/platformjumpgame/GameView.java:29-38 | the constructed game satisfies the invariant (playing iff not over, saved scores sorted and at most the score) |
| `Simulation.ApplyConsistent` | app/src/main/java/com/landrykole/platformjumpgame/GameView.java:65-108 | every frame or touch preserves the invariant |
| `Simulation.ApplySaves` | app/src/main/java/com/landrykole/platformjumpgame/GameView.java:206-213 | an event appends the current score to the log iff it turns a running game into a finished one, and leaves the log alone otherwise |
| `Simulation.RunSaves` | app/src/main/java/com/landrykole/platformjumpgame/GameView.java:206-213 | over a run, the log grows by exactly the number of games that end |
| `Simulation.RunConsistent` | app/src/main/java/com/landrykole/platformjumpgame/GameView.java:181-213 | every run from a consistent state ends in a consistent state, so the log of saved scores stays sorted |
| `Simulation.RunKeepsSaved` | app/src/main/java/com/landrykole/platformjumpgame/GameView.java:210-212 | saved scores are never lost or rewritten: the log after a run extends the log before it |
| `Game.Player.constructor` | app/src/main/java/com/landrykole/platformjumpgame/GameView.java:216-217 | a new player is at (100, 500) with velocity 0 |
| `Game.Player.Update` | app/src/main/java/com/landrykole/platformjumpgame/GameView.java:221-226 | y grows by the old velocity, then the velocity grows by 1; x unchanged |
| `Game.Player.Jump` | app/src/main/java/com/landrykole/platformjumpgame/GameView.java:228-230 | the velocity becomes −15, nothing else changes |
| `Game.Player.CollidesWith` | app/src/main/java/com/landrykole/platformjumpgame/GameView.java:232-237 | holds iff the bottom edge overlaps the platform box; then the player's box overlaps the platform box too; reads only the two objects |
| `Game.Player.IsAbove` | app/src/main/java/com/landrykole/platformjumpgame/GameView.java:239-243 | holds iff the boxes overlap horizontally and the player's bottom edge is at or above the platform's top edge (y + 100 ≤ p.y); excludes `CollidesWith`; reads only the two objects |
| `Game.Platform.constructor` | app/src/main/java/com/landrykole/platformjumpgame/GameView.java:250-253 | the platform is at the given position |
| `Game.Platform.Update` | app/src/main/java/com/landrykole/platformjumpgame/GameView.java:255-257 | x drops by 5, y unchanged |
| `Game.GameView.constructor` | app/src/main/java/com/landrykole/platformjumpgame/GameView.java:19-38 | the initial state: spawned player, the single platform (500, 600), not over, playing, score 0, `lastTime` = now, empty log; the player and the platform are newly allocated |
| `Game.GameView.Update` | app/src/main/java/com/landrykole/platformjumpgame/GameView.java:65-108 | one frame changes the fields exactly as `Simulation.Tick`, keeps the platform objects distinct and the player object the same; every platform afterwards was there before or is newly allocated |
| `Game.GameView.MoveAll` | app/src/main/java/com/landrykole/platformjumpgame/GameView.java:66-95 | player update, both loops and spawning, in that order, exactly as `Simulation.Advance`; the only new platform object is a newly allocated one |
| `Game.GameView.RemovalPass` | app/src/main/java/com/landrykole/platformjumpgame/GameView.java:67-80 | the iterator loop rewrites the player and the list exactly as the first loop of the model, removes in place and introduces no new platform object |
| `Game.GameView.RemovalTurn` | app/src/main/java/com/landrykole/platformjumpgame/GameView.java:69-80 | one turn of the iterator loop extends the moved survivors by the current platform iff its move keeps it on screen, advancing the live index only when it stays, with the player unchanged |
| `Game.GameView.RemovalStep` | app/src/main/java/com/landrykole/platformjumpgame/GameView.java:70-79 | one iteration: the current platform moves and is removed iff it is now off screen; the platforms before and after it are untouched and the player is unchanged |
| `Game.GameView.MoveAndLand` | app/src/main/java/com/landrykole/platformjumpgame/GameView.java:71-77 | moving a platform and running the landing test leaves the player unchanged and reports whether the platform is off screen |
| `Game.GameView.CollisionPass` | app/src/main/java/com/landrykole/platformjumpgame/GameView.java:82-89 | the for-each loop rewrites the player and the platforms exactly as the second loop of the model |
| `Game.GameView.CollisionTurn` | app/src/main/java/com/landrykole/platformjumpgame/GameView.java:82-89 | one turn of the for-each loop moves the current platform and takes the player one step further along the model's second loop |
| `Game.GameView.CollisionStep` | app/src/main/java/com/landrykole/platformjumpgame/GameView.java:83-88 | one iteration: the current platform moves, the player is resolved against it, all other platforms are untouched |
| `Game.GameView.ResolveAgainst` | app/src/main/java/com/landrykole/platformjumpgame/GameView.java:85-88 | the snap on collision, as `Simulation.Resolve` |
| `Game.GameView.SpawnPass` | app/src/main/java/com/landrykole/platformjumpgame/GameView.java:91-95 | appends one platform at (width, 400 + 200·draw) iff the first draw is below 0.02, as a newly allocated object, keeping the list distinct |
| `Game.GameView.UpdateScore` | app/src/main/java/com/landrykole/platformjumpgame/GameView.java:102-107 | the score step, as `Simulation.AddScore` |
| `Game.GameView.GameOver` | app/src/main/java/com/landrykole/platformjumpgame/GameView.java:206-213 | stops play, sets game over and appends the current score to the log; nothing else changes |
| `Game.GameView.RestartGame` | app/src/main/java/com/landrykole/platformjumpgame/GameView.java:196-203 | a newly allocated player and a single newly allocated seed platform, not over, playing; score, clock and log kept |
| `Game.GameView.OnTouchEvent` | app/src/main/java/com/landrykole/platformjumpgame/GameView.java:181-194 | the event is always consumed and the state changes exactly as `Simulation.Touch`; the player and platform objects afterwards are the old ones or newly allocated |
| `Game.GameView.Play` | app/src/main/java/com/landrykole/platformjumpgame/GameView.java:40-47 | a view driven by any sequence of frames (run only while playing, the guard of the game loop) and touches ends in the state `Simulation.Run` gives; it keeps the game's invariant, and the score grows by at most one per frame |
| `Game.PlayFromStart` | app/src/main/java/com/landrykole/platformjumpgame/GameView.java:29-47 | a view constructed at time now and driven through any events is in the state of the model's run from `Initial(now)`, satisfies the invariant, and has saved exactly one score per game that ended |
| `Standalone.Player.constructor` | app/src/main/java/com/landrykole/platformjumpgame/Player.java:4-5 | a new player is at (100, 500) with velocity 0 |
| `Standalone.Player.Update` | app/src/main/java/com/landrykole/platformjumpgame/Player.java:9-14 | y' = y + velocityY, velocityY' = velocityY + 1, x unchanged |
| `Standalone.Player.Jump` | app/src/main/java/com/landrykole/platformjumpgame/Player.java:16-18 | velocity becomes −15 whatever it was; position unchanged |
| `Standalone.Player.CollidesWith` | app/src/main/java/com/landrykole/platformjumpgame/Player.java:20-25 | holds iff the player's box and the platform's box share an interior point; reads only the two objects |
| `Standalone.Player.IsAbove` | app/src/main/java/com/landrykole/platformjumpgame/Player.java:27-31 | holds iff the boxes overlap horizontally and the player's bottom edge is at or above the platform's top edge (y + 100 ≤ p.y); excludes `CollidesWith`; reads only the two objects |

## Left out

- Rendering (`draw`, canvas, paints, bitmaps): user interface only.
- The game thread is left out: `run`, `sleep`, `resume`, `pause` and the surface callbacks. The model keeps one effect of `run`: its loop calls `update()` only while `isPlaying`, so a frame event leaves a stopped game unchanged (`Simulation.Apply`). Touch events are atomic and fall between frames. Races with the game thread are not modelled, and neither is a `pause()` from `surfaceDestroyed`, which would stop play without ending the game.
- `DatabaseHelper` (`saveScore`, `getTopScore`) is not part of this model. It is persistence; its calls are a ghost log only.
- MainActivity.java: Android activity lifecycle.
- `Math.random()`, `getWidth()`, `getHeight()` and `System.currentTimeMillis()` are parameters of a frame (`Simulation.Frame`). `Simulation.TickPlatforms` takes the draws to lie in [0, 1), as `Math.random()` promises.
- Java `float` rounding is not modelled: coordinates are exact reals. One consequence is the `(float)` cast of the spawn height. It could round a value just below 600 up to 600, while the model proves y < 600.
- `int` and `long` overflow of `playerScore` and `lastTime` is not modelled: integers are unbounded.
- The `MotionEvent` is reduced to whether its action is `ACTION_DOWN`.
- The source of the top-level `Platform` class that Player.java uses is not available; `Standalone.Platform` gives it only the `x` and `y` fields that `collidesWith` and `isAbove` read.
