# Retro platformer game loop, modelled in Dafny

The platformer keeps its whole game state in one `App` component in `src/App.jsx`:
- the player (position and vertical velocity) and the airborne flag;
- the coins and the patrolling enemies;
- health, the game-over flag and the score;
- two generation frontiers: the x of the last coin spawned and the x of the last enemy spawned.

One animation frame of the game loop does three things in order:
1. It moves the player: arrow keys, clamping, jump, gravity, floor and ceiling.
2. It moves every enemy one patrol step.
3. It spawns more coins or enemies once the player is within 1000 units of a frontier.

Two effects run outside the frame loop:
- coin pickup, whenever the player changes;
- enemy collision, whenever the player or the enemies change. It costs a life, can end the game, and knocks the player back.

The model splits this into one module per rule:
- `World` holds the constants and records.
- `PlayerMotion` holds the player updater. `Step` is a function. `StepPlayer` is a method that makes the same sequential assignments the source makes.
- `Patrol` is the enemy `map`.
- `Coins` is the pickup `map` with its score bumps.
- `Combat` is the `some` hit test, the health updater and the knockback.
- `Generation` holds the functions that specify a generated batch and its frontier, with their lemmas.
- `GameLoop` holds the class `Game`:
  - its fields are the component's state and refs;
  - the constructor is the hooks' initial state;
  - its methods are the mount effect (`Mount`), the two generation loops, the frame (`Tick`, with its generation step `GenerateAhead`) and the two effects;
  - every method keeps `Game.Valid()` and says exactly what its new state is.

Modelling choices:
- Coordinates are Dafny `real`s, computed exactly. Every constant of the game is a multiple of 0.5. Double rounding is listed under "## Left out".
- Each `Math.random()` call becomes the next element of a supplied sequence of reals in [0, 1).
  - A coin draws two values: its gap, then its height.
  - An enemy draws three: its gap, its direction, then its patrol range.
- The key map is a `Keys` record. The closure's `isJumping` is a parameter.
- The "airborne after the updater" flag follows the order of the source's two `setIsJumping` calls. The later call wins, so:
  - floor contact clears the flag;
  - otherwise a jump taken sets it;
  - otherwise it keeps its old value.

Behaviour of the code worth noting:
- **Patrol never overshoots.** When the next position would leave the patrol range, the enemy does not move and only turns round. So `|x - originalX| <= patrolRange` is an invariant (`Patrol.PatrolStep`, `Patrol.PatrolForever`).
- **One life per evaluation.** The hit test is one `some`, so any number of overlapping enemies cost exactly one health decrement per evaluation of the effect (`Combat.Resolve`). Lives are still lost on consecutive evaluations (`Combat.KnockbackCanStillTouch`), so there is no invulnerability window.
- **Knockback has no clamp, but lands far right.** The knockback rule has no clamp, so on its own it could push x below 25 (`Combat.KnockbackPastLeftBound`). In a reachable state it never does. Every spawn point lies at or right of 600, an enemy strays less than 150 from it, and a hit needs the player within 40. So a knockback lands right of 350 (`GameLoop.KnockbackLandsRight`). The state invariant allows x < 25 only at the spawn point x = 0, before the first frame.
- **Walking from the spawn point.** For the player updater alone, with no enemy contact on the way, 100 frames of ArrowRight from (0, 300) end at x = 520. The first frame's clamp lifts x from 5 to 25 (`PlayerMotion.WalkFromSpawn`). In the whole game an enemy can walk into the player earlier and knock them back.
- **Game over does not stop the effects.** Only the frame loop stops once the game is over (`GameLoop.Game.Tick` changes nothing then). The two effects still run on their triggers, and health stays at 0 (`Combat.Damage`).
- **The generation trigger reads the player before the step.** The loop's closure never sees this frame's updater result. `Tick` therefore tests the pre-step x.

## Model

| member | source | states |
|---|---|---|
| PlayerMotion.Step | src/App.jsx:103-134 | After one frame x lies in [25, 9925]. It is the requested position when that is inside, else the bound it crossed. y lies in [CEILING_Y, FLOOR_Y-50]. The step ends on the floor exactly when the integrated y reaches or passes it, and then vy = 0 and the player is not airborne. A step whose integrated y reaches the ceiling ends there with vy = 0, and the airborne flag is the old one or set by the jump. A jump taken yields vy = -14.5 unless a clamp zeroes it. With no jump and no clamp, vy rises by exactly GRAVITY. Only a jump raises the airborne flag. |
| PlayerMotion.StepPlayer | src/App.jsx:103-134 | The sequential-assignment updater computes exactly the player and the airborne flag given by `Step`. |
| PlayerMotion.WalkRight | src/App.jsx:107-111 | Holding only ArrowRight on the floor moves the player 5 units per frame for n frames and keeps them on the floor, while inside the world. |
| PlayerMotion.WalkFromSpawn | src/App.jsx:21 | For the player updater alone, with no enemy contact on the way, 100 frames of ArrowRight from the spawn point (0, 300) end at (520, 300), vy = 0, not airborne. |
| Patrol.PatrolStep | src/App.jsx:138-144 | If the candidate x + dir*1.5 is outside patrolRange of originalX, x is unchanged and dir is negated. Otherwise x becomes the candidate and dir is kept. id, y, patrolRange and originalX never change. Being inside the range, and being well-formed, are preserved. |
| Patrol.PatrolAll | src/App.jsx:137-145 | The patrol map keeps the list's length and order. Element i is the patrol step of enemy i. A list of well-formed enemies stays well-formed. |
| Patrol.TurnThenWalk | src/App.jsx:139-143 | An enemy that turns round walks 1.5 units back on the next frame: it never turns twice in a row. |
| Patrol.PatrolForever | src/App.jsx:137-145 | Over any number of frames a spawned enemy stays well-formed: inside its range, on the ground, facing 1 or -1. It keeps its id, spawn point and range. |
| Coins.Collect | src/App.jsx:163-177 | Coins keep their number, order, ids and positions. A collected coin stays collected. An uncollected coin becomes collected iff it is within 30 of the player on both axes. The score rises by exactly 10 per newly collected coin. |
| Coins.CollectTwice | src/App.jsx:163-177 | A second pickup at the same position changes no coin and adds nothing to the score. |
| Coins.CollectedGrowth | src/App.jsx:166-172 | When no coin loses its flag, the collected count grows by exactly the number of newly collected coins. |
| Coins.NoneCollected | src/App.jsx:51 | A list of uncollected coins, such as a freshly generated batch, adds nothing to the collected count. |
| Coins.ScoreTracksCoins | src/App.jsx:171 | If the score is 10 times the collected count before a pickup, it still is after it. |
| Combat.AnyHit | src/App.jsx:181-184 | The `some` scan is true iff some enemy is within 40 of the player on both axes. |
| Combat.Damage | src/App.jsx:187-191 | Health h > 1 becomes h - 1; otherwise it becomes 0 and game over is set. Game over is never cleared. Health stays in [0, 3], with game over exactly at 0. |
| Combat.Resolve | src/App.jsx:180-199 | If any enemy touches the player, the result is exactly one `Damage` and one knockback: x - 60, vy = -7.5, y kept. Otherwise nothing changes. At most one life is lost per evaluation, whatever the number of overlapping enemies. The health invariant is preserved. |
| Combat.HitsInARow | src/App.jsx:187-191 | From a consistent state, n hits leave max(0, health - n) lives, and the game is over exactly when they ran out. |
| Combat.ThreeHits | src/App.jsx:25-26 | A fresh session (3 lives) goes to 2, then 1, then 0 with game over on the third hit. |
| Combat.KnockbackCanStillTouch | src/App.jsx:180-199 | A knocked-back player can still touch the enemy that hit them, so the next evaluation takes another life. |
| Combat.KnockbackPastLeftBound | src/App.jsx:193-197 | The knockback rule is not clamped: next to an enemy at 30, a knockback from x = 25 would leave the player left of 25. No reachable state has such an enemy. |
| Generation.CoinBatch | src/App.jsx:43-53 | A batch of `count` coins has exactly `count` coins. |
| Generation.CoinAt | src/App.jsx:45-52 | The i-th coin of a batch lies at the frontier after i + 1 gaps, with id i + x, uncollected. |
| Generation.CoinFrontierBounds | src/App.jsx:46 | Each coin moves the frontier right by a gap in [100, 300): after n coins it lies in [start + 100n, start + 300n). |
| Generation.CoinFrontierIncreasing | src/App.jsx:46 | The coin frontier strictly increases, by at least 100 per coin. |
| Generation.CoinBatchShape | src/App.jsx:45-52 | Each coin's x exceeds the previous coin's x (the first coin's, the old frontier) by a value in [100, 300). Each height lies in [50, 250). Each coin is uncollected, with id = index + x. |
| Generation.CoinBatchAscends | src/App.jsx:45-52 | A batch's xs and ids strictly ascend. All lie past the old frontier and up to the new one, and the new frontier equals the last coin's x. |
| Generation.AppendCoins | src/App.jsx:54 | Appending a batch to coins ascending up to the old frontier gives coins ascending up to the new frontier, which is not left of the old one. |
| Generation.EnemyBatch | src/App.jsx:57-69 | A batch of `count` enemies has exactly `count` enemies. |
| Generation.EnemyAt | src/App.jsx:59-68 | The i-th enemy of a batch lies at the frontier after i + 1 gaps, with id i + x. |
| Generation.EnemyFrontierBounds | src/App.jsx:60 | Each enemy moves the frontier right by a gap in [200, 500): after n enemies it lies in [start + 200n, start + 500n). |
| Generation.EnemyFrontierIncreasing | src/App.jsx:60 | The enemy frontier strictly increases, by at least 200 per enemy. |
| Generation.EnemyBatchShape | src/App.jsx:59-68 | Each enemy's x exceeds the previous enemy's x (the first enemy's, the old frontier) by a value in [200, 500). Each enemy has originalX = x, y = FLOOR_Y - 50, dir in {1, -1}, patrolRange in [50, 150) and id = index + x. |
| Generation.EnemyBatchAscends | src/App.jsx:59-68 | A batch's spawn points and ids strictly ascend. All lie at least 200 past the old frontier and up to the new one, and the new frontier equals the last spawn point. |
| Generation.AppendEnemiesAscend | src/App.jsx:70 | Appending a batch keeps the spawn points ascending up to the new frontier. |
| Generation.AppendEnemiesWellFormed | src/App.jsx:70 | Appending a batch keeps every enemy well-formed. |
| GameLoop.AppendKeepsCoinsOk | src/App.jsx:54 | A coin batch keeps the score equal to 10 times the collected coins, and the coins ascending up to the moved frontier. |
| GameLoop.AppendKeepsEnemiesOk | src/App.jsx:57-70 | An enemy batch keeps the enemy invariant up to the moved frontier: well-formed, ascending, and no spawn point left of 600. |
| GameLoop.KnockbackLandsRight | src/App.jsx:180-199 | With the enemy invariant, a knockback lands the player right of 350. |
| GameLoop.PatrolKeepsEnemiesOk | src/App.jsx:137-145 | Patrol keeps the enemy invariant: spawn points, and so their order, do not move. |
| GameLoop.PickUpKeepsCoinsOk | src/App.jsx:163-177 | A pickup keeps the coin invariant: positions stay, and the score follows the collected count. |
| GameLoop.Game.constructor | src/App.jsx:21-31 | The initial state: the player at (0, 300) and not airborne, 3 lives, no game over, score 0, no coins or enemies, coin frontier 200, enemy frontier 400. The state invariant holds. |
| GameLoop.Game.Mount | src/App.jsx:37-41 | The mount effect appends exactly a batch of 20 coins from the coin frontier and one of 10 enemies from the enemy frontier. From the constructor's state these are the batches from 200 and from 400. Both frontiers move to their batches' frontiers. No other field changes, and the invariant is kept. |
| GameLoop.Game.GenerateCollectibles | src/App.jsx:43-55 | The loop appends exactly the specified batch of `count` coins to the unchanged old list. It leaves the coin frontier at the batch's frontier, which has not moved left. No other field changes, and the invariant is kept. |
| GameLoop.Game.GenerateEnemies | src/App.jsx:57-71 | The loop appends exactly the specified batch of `count` enemies to the unchanged old list. It leaves the enemy frontier at the batch's frontier, which has not moved left. No other field changes, and the invariant is kept. |
| GameLoop.Game.Tick | src/App.jsx:94-160 | When the game is over, nothing changes. Otherwise the player and airborne flag are one `Step`, and the enemies are one patrol step. 5 coins (or 3 enemies) are appended exactly when the pre-step player x > frontier - 1000, and otherwise that list and its frontier are unchanged. Health, game over and score are kept. The invariant is kept. |
| GameLoop.Game.GenerateAhead | src/App.jsx:147-153 | A batch of 5 coins is appended exactly when the given player x > coin frontier - 1000, and one of 3 enemies exactly when it is > enemy frontier - 1000. Otherwise that list and its frontier are unchanged. No other field changes, and the invariant is kept. |
| GameLoop.Game.PickUpCoins | src/App.jsx:163-177 | The coins and the score become exactly the pickup `Coins.Collect` computes for the current player. No other field changes, and the invariant is kept. |
| GameLoop.Game.CheckEnemyCollision | src/App.jsx:180-199 | The player, health and game over become exactly the outcome `Combat.Resolve` computes. No other field changes, and the invariant is kept, including x >= 25 away from the spawn point. |

## Left out

- React scheduling is not modelled:
  - state hooks, refs and effects are fields of `GameLoop.Game` and explicit method calls;
  - when React runs an effect, and how updates are batched, is up to the caller of those methods;
  - StrictMode's double invocation of updaters is not modelled.
- GameLoop.Game.Tick: the generation trigger reads the player x from before this frame's step. In the source that read can be older still. The loop closure is re-created only when `gameOver` or `isJumping` changes, so its `player` can be the value from that render.
- `requestAnimationFrame`, `cancelAnimationFrame`, the timestamp and the `deltaTime` computation. `deltaTime` is computed but never used.
- The keyboard listeners and `preventDefault`. The key map is the `Keys` input record.
- `Math.random()`: its values are supplied sequences of reals in [0, 1). No random number generator is modelled.
- IEEE double rounding: the model's reals are exact. In the source, values derived from `Math.random()` (gaps, heights, patrol ranges) are rounded doubles, and so are the sums built on them, such as the patrol candidate `x + dir * 1.5`.
- Rendering, the parallax background, the restart by page reload, asset imports and `VIEWPORT_WIDTH`. None of them affects state.
- `src/Player.jsx`, `src/Enemy.jsx`, `src/Collectible.jsx`, `src/Platform.jsx` and `src/Wall.jsx` are not part of this model. They are presentational components with no game logic.
