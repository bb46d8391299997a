# Marcianitos game core in Dafny

A model of the game logic of *marcianitos*, a single-screen browser shooter: the player's
ship moves left and right along the bottom of the field and fires upward; a lattice of
enemies sweeps sideways, drops a row whenever it reaches a side, and fires back on a
timer. Destroying an enemy scores 100 points, being hit costs one of three lives, and
clearing the wave moves to the next level with a denser wave.

The rendering surface is gone: every element is a `Box` (left, top, width, height in
whole pixels), and the three element lists (`enemies`, `bullets`, `enemyBullets`) are
`seq<Box>` fields of one `Game` object that its methods reassign. Each state-changing
function of the script is a method of `Game`, and `isColliding` is the predicate
`Geometry.IsColliding`. Timer callbacks (the 100 ms tick, the 2 s enemy fire, the
300 ms cooldown release) are methods the caller invokes.

Modules:

- `Geometry` (`geometry.dfy`): `Box` and the overlap test `IsColliding`.
- `Sweep` (`sweep.dfy`): what a `forEach` whose callback may `splice(i, 1)` the visited
  element does. `forEach` fixes its step count at the start and skips indices the list
  no longer has, so the element that shifts into a just-emptied slot is passed over in
  that pass. `Scan` states the result over the original positions. `AdvanceShots` is the
  loop itself. `SweepInvariant` and its step lemmas tie any such loop to `Scan`, and the
  collision loops use them too.
- `Waves` (`waves.dfy`): the 4-row enemy lattice and its column count.
- `Formation` (`formation.dfy`): the formation tick, as specification functions.
- `Combat` (`combat.dfy`): `ShotPass`, the outcome of one shot's inner enemy loop, and
  `BulletScan`, the outcome of the whole nested shot/enemy loop, including its repeated
  `splice` of the shot index.
- `Marcianitos` (`game.dfy`): the `Game` class with the state and all operations.
  `MoveAll` groups the four movement calls of `gameLoop`, in their order, so that the
  contract of `GameLoop` composes two calls.

`Valid()` is the invariant every operation keeps: the score is a non-negative multiple
of 100, the level is at least 1, the direction is 1 or -1, and the bullet speed is
positive. `PlayerInBounds()` says the player is less than one step (at most 9 px) past either side, and
`MovePlayer` keeps it.

Behaviour of the code that the model keeps:

- A shot is not consumed by its first hit. The inner loop goes on testing `b` against
  the later enemies, and every further hit destroys another enemy and calls
  `bullets.splice(bIndex, 1)` again, which removes whatever shot then sits at that index.
- The first hit calls `b.remove()`. A detached element has no layout box, so its
  offsets and size read 0, and the rest of that inner pass tests each enemy against the
  point (0, 0) (`Combat.DETACHED`). A shot therefore destroys a second enemy only if that
  enemy covers the origin (`Combat.DetachedShotHitsOrigin`), and not for overlapping
  the shot's own box (`Combat.DetachedShotMissesOverlap`).
- Removal splices inside `forEach`, so the element after a removed one is passed over
  in that pass (`Sweep.Scan`).
- Each step of `movePlayer` is tested before it is taken, so the player can end less
  than one step (at most 9 px) past either side (`Game.PlayerInBounds`).
- Nothing guards `startGame` or the tick against a finished game: `endGame` runs inside
  the enemy-shot loop, that loop goes on to its end, and `endGame` can run again in the
  same pass.

## Model

| member | source | states |
|---|---|---|
| `Geometry.IsColliding` | script.js:297-302 | two boxes collide unless one lies strictly above, below, left or right of the other |
| `Geometry.CollidingSymmetric` | script.js:297-302 | the overlap test gives the same answer with its arguments swapped |
| `Geometry.CollidingIffSharedPoint` | script.js:297-302 | two boxes collide exactly when their closed rectangles share a point, so boxes touching only at an edge collide |
| `Sweep.Drops` | script.js:200-281 | the four removal tests: a player shot whose top is above 0, an enemy shot whose top is below the field height, an enemy the shot collides with, an enemy shot that collides with the player |
| `Sweep.RemoveAtShifts` | script.js:201 | `splice(i, 1)` keeps the elements before `i` at their index, moves each later one down by one, and removes exactly one occurrence of the element at `i` |
| `Sweep.Scan` | script.js:198-203 | a move-and-splice pass never makes a list longer |
| `Sweep.AdvanceShots` | script.js:198-203 | the index loop with `splice` inside `forEach` produces exactly the `Scan` of its input |
| `Sweep.ScanThinned` | script.js:198-203 | after a pass the list is a subsequence of the old one in the same order, and each survivor's top moved by exactly the step (visited) or not at all (passed over); no bullet reverses |
| `Sweep.ScanKeeps` | script.js:200-202 | an element is removed only if its moved position meets the removal test: every element that passes the test is still in the list, at an index no later than its own, moved or passed over |
| `Sweep.ScanKeepsHalf` | script.js:198-203 | a removal protects the next element, so at most every other element is removed in one pass |
| `Sweep.ScanDropsNothing` | script.js:254-261 | when no moved element meets the removal test, the pass moves every element by the step and keeps them all |
| `Sweep.RemoveAtSubseq` | script.js:201 | `splice(i, 1)` leaves a subsequence of the list, for every `i` (that an index past the end removes nothing is `Sweep.RemoveAt`'s own contract) |
| `Waves.Cols` | script.js:120-122 | the column count is 6 to 10 on a narrow viewport and 9 to 12 otherwise, for every level from 1 up |
| `Waves.RowOf` | script.js:126-134 | the inner loop's first `n` pushes are the cells (c*50, row*50) for c < n, in order |
| `Waves.Lattice` | script.js:125-135 | `rows` rows of `cols` cells hold `rows * cols` enemies |
| `Waves.LatticeAt` | script.js:125-133 | row r, column c of the lattice is at index r*cols + c, at position (c*50, r*50) |
| `Waves.Wave` | script.js:121-135 | a wave has exactly 4 * cols enemies and is never empty (at least 24) |
| `Waves.WaveLayout` | script.js:125-133 | every (row, column) of the wave holds the enemy at (column*50, row*50) |
| `Formation.Lower` | script.js:225-229 | a lowered enemy keeps its left edge and size and its top moves by +15, or by +15-30 exactly when the lowered enemy reaches 100 px above the floor (the only case in which it ends higher) |
| `Formation.Step` | script.js:213-231 | a formation tick keeps the number of enemies |
| `Formation.StepMoves` | script.js:213-231 | a formation tick keeps every enemy and its size, shifts each by exactly the step; tops change only on an edge tick, by +15, or by +15-30 when the lowered enemy reaches 100 px above the floor |
| `Combat.RemoveRepeat` | script.js:274 | `n` repeated splices at one index remove at most `n` elements |
| `Combat.RemoveRepeatSubseq` | script.js:274 | repeated splices leave a subsequence |
| `Combat.ShotPass` | script.js:269-276 | one shot's inner pass never adds an enemy |
| `Combat.ShotPassMisses` | script.js:269-276 | a shot that collides with no enemy leaves the enemy list unchanged |
| `Combat.ShotPassFirstHit` | script.js:269-276 | with `j` the first enemy the shot collides with, the enemies before `j` stay, `j` is destroyed, and the rest is a removal pass of the detached (0, 0, 0, 0) box that passes over the enemy after `j` |
| `Combat.ShotPassSubseq` | script.js:269-276 | the enemies left by one shot's pass are a subsequence of the old list, in order and unmoved |
| `Combat.BulletScan` | script.js:268-277 | the nested loop never adds a shot or an enemy |
| `Combat.BulletScanAccounting` | script.js:268-277 | the shot/enemy loop only removes elements, keeps order in both lists, and removes at most one shot per destroyed enemy |
| `Combat.DetachedShotHitsOrigin` | script.js:268-277 | a shot hitting the first enemy passes over the second; the detached shot also hits a third enemy that covers the origin, and the second splice at the shot's index removes the other shot, which hit nothing |
| `Combat.DetachedShotMissesOverlap` | script.js:268-277 | after its first hit a shot no longer hits an enemy that overlaps its own box but not the origin: that enemy and the other shot survive |
| `Marcianitos.Muzzle` | script.js:182 | a shot spawns 2 px left of its shooter's horizontal midpoint, rounded down to a whole pixel |
| `Marcianitos.PlayerStep` | script.js:152-157 | a step keeps the player's top and size, moves it by -10, 0 or +10, left exactly when the left key is held at left > 0 and the right step does not undo it, right exactly when the left step was not taken and the right key is held with the right edge left of the field's |
| `Marcianitos.PlayerStepBounded` | script.js:152-157 | a player less than one step past either side stays so after a step |
| `Marcianitos.Game.constructor` | script.js:18-37 | the page-load state: no elements, score 0, level 1, 3 lives, enemy speed 2, direction right, bullet speed 12, no keys held, no cooldown |
| `Marcianitos.Game.StartGame` | script.js:72-91 | speeds 1.5/12 easy, 2.5/14 medium, 3.5/16 hard; score 0, level 1, 3 lives, the level-1 wave, timers running |
| `Marcianitos.Game.CreateEnemies` | script.js:114-136 | the old wave is replaced entirely by the wave for the current level and viewport class |
| `Marcianitos.Game.GameLoop` | script.js:141-147 | a tick keeps the game invariant and the player bound and gives the whole new state: the stepped player, the flipped or kept direction, the moved player shots, formation and enemy shots, and from them the shot/enemy outcome with its score and level, a new wave when no enemy is left, and the enemy shots, lives and running flag after the player test |
| `Marcianitos.Game.MoveAll` | script.js:142-145 | the four movement steps in order: the player step, the `Scan` of the player shots, the formation `Step` with its direction flip, the `Scan` of the enemy shots |
| `Marcianitos.Game.MovePlayer` | script.js:152-157 | the player becomes its `PlayerStep`, and the player bound is preserved |
| `Marcianitos.Game.KeyDown` | script.js:162-166 | arrow keys set their hold flag and space fires as `Shoot` does |
| `Marcianitos.Game.KeyUp` | script.js:167-170 | arrow keys clear their hold flag |
| `Marcianitos.Game.Shoot` | script.js:175-186 | during the cooldown nothing changes; otherwise exactly one shot at (player midpoint - 2, player top) is appended, and the cooldown is on in both cases |
| `Marcianitos.Game.ReleaseCooldown` | script.js:191 | the cooldown flag is cleared |
| `Marcianitos.Game.MoveBullets` | script.js:197-204 | the player shots are the `Scan` with step -bulletSpeed and removal when the top is above 0 |
| `Marcianitos.Game.MoveEnemyBullets` | script.js:254-261 | the enemy shots are the `Scan` with step +10 and removal when the top is below the field height |
| `Marcianitos.Game.MoveEnemies` | script.js:209-235 | every enemy shifts by step * direction; the direction flips once exactly when some shifted enemy touches or passes a side, and only then are all enemies lowered once |
| `Marcianitos.Game.EnemyShoot` | script.js:240-249 | nothing happens without enemies; otherwise exactly one shot at the chosen enemy's (midpoint - 2, bottom edge) is appended |
| `Marcianitos.Game.EndGame` | script.js:316-318 | the timers stop |
| `Marcianitos.Game.CheckCollisions` | script.js:266-292 | the shots and enemies are the `BulletScan` outcome; score rises by exactly 100 per destroyed enemy; the shot list loses at most one shot per hit; lives fall by exactly one per removed enemy shot and the game stops once a hit leaves none; an empty wave raises the level by one and brings the next wave |
| `Marcianitos.Game.ShotsAgainstEnemies` | script.js:268-277 | the outer shot loop yields exactly `BulletScan` of the two lists, with 100 points per destroyed enemy |
| `Marcianitos.Game.ShotAgainstEnemies` | script.js:269-276 | one shot's inner loop leaves exactly the `ShotPass` of the enemies (its own box up to the first hit, the detached box after it), splices the shot index once per hit and scores 100 per hit |
| `Marcianitos.Game.ShotsAgainstPlayer` | script.js:280-286 | the enemy shots are the `Scan` that removes those colliding with the player; one life per removal; the game stops when a hit leaves no lives |

## Left out

- Rendering: `getElementById`, `createElement`, `appendChild`, `remove()`, class lists, `style` strings and `updateHUD`. Positions are integer fields.
- Sound: the `Audio` objects and their `play`/`pause` calls and volume settings.
- Timers: `setInterval`, `clearInterval` and the `setTimeout` that ends the cooldown. The tick (`GameLoop`), enemy fire (`EnemyShoot`) and cooldown release (`ReleaseCooldown`) are methods the caller runs. `running` stands for "both intervals are active".
- The `alert` and `location.reload` in `endGame`, and the start screen being hidden.
- Event wiring (`addEventListener` for keys and difficulty buttons). The handlers are `KeyDown` and `KeyUp`; the chosen difficulty is the argument of `StartGame`.
- Environment reads: `window.innerWidth <= 600` is the `isMobile` argument. `Math.random` for the firing enemy is the `pick` argument. The container's size is fixed when the game is built.
- The cosmetic colour class of each enemy: it has no effect on the game.
- The final `filter(e => e.isConnected)` of `moveEnemies`: every enemy in the list is connected, so in the model it keeps the list as it is.
- The `difficulty` string: it is one of three values, so the switch without a default is a three-case match.
- Marcianitos.Game.MoveEnemies: the shift is `enemyStep * enemyDirection` for a whole-pixel `enemyStep` the caller supplies. The source shifts by the fractional `enemySpeed` and lets the layout round `offsetLeft`; that rounding is floating-point layout behaviour. `enemySpeed` is kept as the exact `real` of the difficulty table.
- Marcianitos.Game.Shoot: the spawn position `offsetWidth / 2` is integer (floor) division. In the source an odd width gives a half pixel that layout rounding resolves.
- Marcianitos.Game.EnemyShoot: the same floor division for the enemy's midpoint.
