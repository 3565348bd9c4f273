# Ticketmaster Blaster: the game simulation in Dafny

A model of the simulation core of `game.js`, a Space-Invaders-style canvas game.
The player moves along the bottom of an 800 x 600 canvas and fires projectiles
upward at a 3 x 6 formation of enemies. The formation marches sideways, steps
down and turns at the walls. Each hit scores 10. The game ends when an enemy
comes down to the player's row. A cleared formation is rebuilt.

Modules, one per component of the game:

- `Geometry` (geometry.dfy): rectangles, the centred 60% hitbox and `checkCollision`.
- `Entities` (entities.dfy): the game's constants and the projectile and enemy records.
- `EnemyGrid` (grid.dfy): the formation that `createEnemies` lays out.
- `Projectiles` (projectiles.dfy): the projectile advance-and-filter step of `update`.
- `Formation` (formation.dfy): the enemy march step of `update`.
- `Collisions` (collisions.dfy): the collision pass of `update`. It is modelled
  with the nested `forEach` loops splicing both arrays while iterating them.
- `Rules` (rules.dfy): the game state as a value, and one function per action
  (`startGame`, `resetGame`, `endGame`, `shoot`, `update`), with the properties
  of the whole game.
- `Simulation` (simulation.dfy): class `Game`. Its fields are the module-level
  variables `player.x`, `projectiles`, `enemies`, `score`, `gameOver` and
  `gameStarted`. Its methods update them in place, with the source's loops.
  Each method's postcondition equates the new state (or the fields it changes)
  with the matching function of the model applied to the old state: a `Rules`
  action, or `Grid`, `AdvanceAll`, `March` or `CollisionPass` for the parts of a frame.

Coordinates are exact reals. Every coordinate the game can reach is a small
whole number or half: the player's x is a multiple of 5 in [0, 700], a
projectile's x is the player's x + 42.5 and its y is 480 - 7k, an enemy's x is
40 + 2k and its y is 20 + 20k. The hitbox products on the game's sizes
(15, 45, 80 times 0.2 and 0.6) are the whole numbers 3, 9, 16, 9, 27 and 48 in
IEEE-754 as well. So exact reals agree with the JavaScript on every reachable
state; they differ only for arbitrary real inputs to `CheckCollision`.

Held keys are the two booleans `left` (`ArrowLeft` or `a`) and `right`
(`ArrowRight` or `d`), passed to `Update`.

### How the collision pass behaves as written

`projectiles.forEach` fixes its number of turns when it is called. At turn
`k` it visits element `k` only if that index still exists, and it reads the
current value there. The inner `enemies.forEach` works the same way. So:

- after a splice, the element that shifts into the current index is skipped;
- the captured `projectile` keeps being tested against later enemies after it
  has been spliced out;
- each further hit splices the projectile array at the captured index again,
  removing whichever projectile now sits there, or nothing past the end.

`Collisions.CapturedProjectileKeepsHitting` exhibits all three at once.
The score still rises by exactly 10 per enemy removed (`Collisions.CollisionPassAccounting`).

A 15 x 45 projectile and an 80 x 80 enemy with the same top-left corner
(100, 100) overlap as drawn but do not collide: the projectile's hitbox spans
x from 103 to 112 and the enemy's starts at x = 116 (`Collisions.CornerAlignedMiss`).
`Collisions.SingleHit` shows a hit with a projectile centred on the enemy.

## Model

| member | source | states |
|---|---|---|
| `Geometry.Hitbox` | game.js:289-301 | the hitbox keeps the rectangle's centre on both axes |
| `Geometry.CheckCollision` | game.js:287-307 | two objects collide iff, on each axis, their centres are closer than 0.3 times the sum of their sizes |
| `Geometry.CollisionSymmetric` | game.js:303-306 | `checkCollision(a, b) == checkCollision(b, a)` for all rectangles |
| `Geometry.TouchingHitboxesMiss` | game.js:303-306 | hitboxes that only share an edge, on either axis, do not collide (strict comparisons) |
| `Geometry.SelfCollision` | game.js:287-307 | a rectangle collides with a copy of itself iff its width and height are positive |
| `EnemyGrid.EnemyAt` | game.js:183-189 | the enemy pushed for one row and column |
| `EnemyGrid.RowPrefix` | game.js:182-190 | what the inner push loop has built after `cols` turns: `cols` enemies |
| `EnemyGrid.Rows` | game.js:181-191 | what the outer loop has built after `rows` turns: `rows * 6` enemies |
| `EnemyGrid.Grid` | game.js:176-192 | the fresh formation, of exactly `ENEMY_ROWS * ENEMIES_PER_ROW` enemies |
| `EnemyGrid.RowPrefixLayout` | game.js:182-190 | after `cols` turns of the inner loop, the row holds `cols` enemies, column `c` at index `c` |
| `EnemyGrid.RowsLayout` | game.js:181-191 | after `rows` turns of the outer loop there are `rows * 6` enemies in row-major order: index `r * 6 + c` holds the enemy of row `r`, column `c` |
| `EnemyGrid.EnemyAtPlacement` | game.js:178-189 | the enemy of row `r`, column `c` is at (40 + 120 c, 20 + 120 r), 80 x 80, direction 1 |
| `EnemyGrid.GridLayout` | game.js:176-192 | the fresh formation has exactly 3 * 6 = 18 enemies in row-major order, each inside the 800 x 600 canvas, clear of both walls, above the game-over line, 80 x 80 and moving right |
| `Projectiles.Advance` | game.js:238 | one projectile after `y -= speed` |
| `Projectiles.AdvanceAll` | game.js:237-240 | the projectile step never adds projectiles, and every survivor has y > 0 |
| `Projectiles.SurvivorsInOrder` | game.js:237-240 | the survivors are exactly the projectiles, moved up by their own speed, that are still below the top edge, in their original relative order |
| `Formation.TouchesWall` | game.js:245 | the wall test of the scan: x <= 0 or x + width >= 800 |
| `Formation.AnyTouchesWall` | game.js:243-248 | the scan's verdict `shouldMoveDown` |
| `Formation.FlipAndDescend` | game.js:251-254 | direction times -1 and y + 20 |
| `Formation.StepSideways` | game.js:257-259 | x + direction times 2 |
| `Formation.March` | game.js:243-259 | the march keeps the enemy count |
| `Formation.MarchEffect` | game.js:243-259 | if any enemy touched a wall before moving, every direction flips and every y grows by 20, otherwise no y changes; then every x moves by the new direction times 2 |
| `Formation.MarchKeepsFormation` | game.js:243-259 | vertical offsets between enemies never change; enemies that shared a direction still do and keep their horizontal offset |
| `Formation.MarchKeepsLockstep` | game.js:243-259 | a formation whose enemies all move the same way (+1 or -1) still does after the march |
| `Collisions.Splice` | game.js:265-266 | `splice(i, 1)` removes element `i` and shifts the rest down, and removes nothing when `i` is past the end |
| `Collisions.InnerVisit` | game.js:263-269 | one inner callback: on a hit, splice both arrays and add 10 |
| `Collisions.InnerLoop` | game.js:263-270 | the inner forEach's remaining turns, its length fixed when called |
| `Collisions.OuterVisit` | game.js:262-271 | one outer callback, run only if the index still exists |
| `Collisions.OuterLoop` | game.js:262-271 | the outer forEach's remaining turns, its length fixed when called |
| `Collisions.CollisionPass` | game.js:262-271 | the whole pass never lowers the score and never grows either array |
| `Collisions.InnerLoopConserves` | game.js:263-270 | each turn of the inner loop adds 10 to the score per enemy removed and only removes projectiles and enemies |
| `Collisions.OuterLoopConserves` | game.js:262-271 | the same for the turns of the outer loop |
| `Collisions.CollisionPassAccounting` | game.js:262-271 | the pass raises the score by exactly 10 times the number of enemies removed; neither array grows; every remaining projectile and enemy was there before |
| `Collisions.NoHitsNoChange` | game.js:262-271 | when no projectile overlaps any enemy, the pass changes nothing |
| `Collisions.SingleHit` | game.js:262-271 | a projectile centred on the only enemy removes both and scores exactly 10 |
| `Collisions.CornerAlignedMiss` | game.js:287-307 | a projectile sharing the enemy's top-left corner overlaps its drawn rectangle but not its hitbox, so the pass leaves everything unchanged |
| `Collisions.CapturedProjectileKeepsHitting` | game.js:262-271 | with the splices done in place, one projectile can remove two enemies, the enemy shifted into the spliced index is skipped, and an uninvolved projectile is spliced out |
| `Rules.Initial` | game.js:18-29 | the page-load state: player inside [0, 700], game not running |
| `Rules.Start` | game.js:169-173 | starting changes only the started flag and the formation, and leaves the game running unless it is over |
| `Rules.Reset` | game.js:215-222 | reset keeps the player and the started flag, and leaves a started game running |
| `Rules.End` | game.js:310-314 | ending stops the game and changes nothing but the game-over flag |
| `Rules.Shoot` | game.js:202-212 | a shot adds one projectile exactly when the game is running and changes nothing but the projectiles |
| `Rules.MovePlayer` | game.js:229-234 | from inside [0, 700] the player stays inside and moves at most 5; with no key held it does not move |
| `Rules.ReachedBottom` | game.js:275 | an enemy's bottom edge at or below the player's y + 20 |
| `Rules.Step` | game.js:225-284 | one frame keeps the started flag; while running it never lowers the score nor adds projectiles |
| `Rules.ShootEffect` | game.js:202-212 | while running, shooting appends exactly one projectile at x = player x + 42.5, y = 480, 15 x 45, speed 7, and changes nothing else; otherwise it changes nothing |
| `Rules.ShootTimesAddsN` | game.js:202-212 | firing n times while running adds n projectiles and changes nothing else |
| `Rules.ResetIdempotent` | game.js:215-222 | reset sets score 0, game-over false, no projectiles and the fresh formation `Grid()`, keeps the player and the started flag, and resetting twice equals resetting once |
| `Rules.ResetResumes` | game.js:215-222 | resetting a started game leaves it running with 18 enemies |
| `Rules.StepIdleUnlessRunning` | game.js:226 | a frame changes nothing unless the game is started and not over |
| `Rules.MovePlayerStaysInside` | game.js:229-234 | a player x in [0, 700] stays in [0, 700] for every combination of held keys |
| `Rules.GameOverIsFinal` | game.js:226 | once a frame sets game-over, every later frame is a no-op |
| `Rules.StepScoreAccounting` | game.js:262-271 | a frame raises the score by 10 times the number of enemies the collision pass removed; the score never falls and the projectile count never grows |
| `Rules.StepRespawns` | game.js:281-283 | after a running frame the formation is never empty; a formation emptied by the pass comes back as the fresh grid and the game goes on |
| `Rules.GridClearOfBottom` | game.js:274-278 | no enemy of the fresh formation is at the game-over line |
| `Rules.StepGameOverIff` | game.js:274-283 | after a running frame, game-over is set iff some remaining enemy has y + height >= player y + 20 |
| `Rules.InitialInv` | game.js:18-29 | the state on page load satisfies the game invariant |
| `Rules.ActionsKeepInv` | game.js:169-222 | start, reset, end and shoot keep the game invariant: player in [0, 700], score a non-negative multiple of 10, fixed sizes and speed, formation in lockstep, a running game has enemies |
| `Rules.StepKeepsInv` | game.js:225-284 | a frame keeps the game invariant |
| `Simulation.Game.constructor` | game.js:18-29 | the initial state: player x 350, no projectiles, no enemies, score 0, not over, not started |
| `Simulation.Game.CreateEnemies` | game.js:176-192 | the nested loops push exactly the fresh formation and change no other field |
| `Simulation.Game.StartGame` | game.js:169-173 | sets started and lays out the formation, nothing else |
| `Simulation.Game.ResetGame` | game.js:215-222 | the new state is the reset of the old one |
| `Simulation.Game.EndGame` | game.js:310-314 | sets game-over, nothing else |
| `Simulation.Game.Shoot` | game.js:202-212 | the new state is the old one after a shot |
| `Simulation.Game.Update` | game.js:225-284 | the new state is one frame of the old one with the given keys |
| `Simulation.Game.MovePlayer` | game.js:229-234 | left is applied and clamped at 0, then right, clamped at 700 |
| `Simulation.Game.AdvanceProjectiles` | game.js:237-240 | the filter loop leaves exactly the advanced survivors |
| `Simulation.Game.MarchEnemies` | game.js:243-259 | the three enemy loops leave the marched formation |
| `Simulation.Game.ResolveCollisions` | game.js:262-271 | the nested loops with in-place splices leave exactly the result of the collision pass |
| `Simulation.Game.CheckEnemiesReachedBottom` | game.js:274-278 | game-over is set iff it was set before or some enemy has reached the line |

## Left out

- `loadSprites` (asynchronous image loading) and the sprite-or-rectangle choice: presentation only, with no effect on the simulation.
- `init`, `setupMobileControls` and the touch handlers: DOM lookup and event wiring. Held keys are the two booleans passed to `Update`.
- `handleKeyPress`: an event wrapper whose guard repeats `shoot`'s own guard.
- `draw` and `gameLoop`: canvas rendering and `requestAnimationFrame` scheduling. A frame is one call of `Update`.
- The DOM updates inside `startGame`, `resetGame`, `update` and `endGame` (overlay classes, score and final-score text): they are one-way notifications that do not feed back into the state.
- IEEE-754 rounding for arbitrary inputs: coordinates are exact reals, which agree with the JavaScript on every state the game can reach, but not for arbitrary non-representable real rectangles given to `CheckCollision`.
- The player's y, width, height and speed are constants (480, 100, 100, 5), since nothing in the core changes them.
