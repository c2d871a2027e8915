# Burger shooter: the frame simulation of `game.js`

This project models the simulation core of a small browser arcade shooter. The player's sprite moves up and down the left edge of a fixed arena and fires bullets to the right. Enemies spawn at the right edge and drift left. Once per animation frame, `update(now)` runs seven phases in order:

1. move and clamp the player;
2. maybe fire (rate-limited);
3. advance the bullets, dropping those past the right edge;
4. maybe spawn an enemy and raise the difficulty;
5. advance the enemies, dropping those past the exit line;
6. resolve bullet-versus-enemy hits, which remove both and score;
7. resolve enemy-versus-player hits, which end the game.

The key handlers set intent flags or restart a finished game.

The model has two layers:

- **Values** (`Rules`, with `Geometry`, `Entities`, `Seqs` and `Collisions` below it). `World` is the `state` record plus the module variable `lastShot`. Every phase of a frame is a function `World -> World`, and `Tick` composes them in the source's order. The host's events (frames, key presses and releases, the asset loader's two callbacks) form a datatype, and `Apply`/`Run` feed them to the game. Most properties are proved here, as `ensures` clauses on the step functions and as lemmas in `Properties`. These include:
  - an invariant kept by every event of a whole session;
  - the exact difficulty reached after N spawns;
  - the spacing of shots.
- **The object** (`Engine.Game`). It is a class whose fields are those of `state` and whose methods update them in place, as the source does.
  - The movement loops walk the lists backwards and `splice` in place.
  - The bullet pass has a nested loop with an early exit.
  - Each phase method (`MaybeShoot`, `MoveBullets`, `MaybeSpawnEnemy`, `MoveEnemies`, `ResolveBulletHits`, `ResolvePlayerHits`, `GameOver`), `Update`, `ResetGame` and each handler ensures something specific: its new `Snapshot()` is the matching step function or event of `Rules` applied to the old one. Everything proved about the step functions therefore holds for the object.
  - Three helpers state their effect directly instead:
    - `Shoot` appends exactly `NewBullet` and changes nothing else.
    - `SpawnEnemy` appends exactly `SpawnedEnemy` and changes nothing else.
    - `ScanEnemies` either changes nothing, when `LastHit` finds no enemy, or removes that bullet and the enemy `LastHit` names and adds one to the score.

Host inputs become parameters:

- The clock reading `now` is a parameter of every frame.
- The two `Math.random()` draws of a spawn are parameters `r1` and `r2`. The invariants assume they lie in [0, 1).
- The arena size and the player's left offset and outer size are fixed when the game is built (`Arena`), because the page reads them from the layout.
- Coordinates, speeds and hitbox factors are exact `real`s.
- `parseInt` of a pixel length is truncation toward zero, so `playerX` is an integer.
- `e.w || 100` is `SizeOrDefault`.

Some behaviours of `game.js` are easy to miss, or differ from what a player would expect. The model follows the code:

- **Restart does not reset everything.** It does not reset the spawn interval, the maximum enemy speed, `lastSpawn`, `lastShot` or the held keys; only entities, score, position and the running flag are reset. `Properties.RestartKeepsDifficulty` states this.
- **No shot at time 0.** `lastShot` starts at 0, so a frame with `now <= 500` cannot fire.
- **A failed asset load is not strictly terminal.** The failure callback only clears `running`, and the restart key can set it again. No frame is ever delivered, though, because the frame loop starts only in the success callback, so `Apply` ignores frames until `AssetsLoaded`.
- **Collisions use truncated positions.** A new bullet's row uses the player's truncated top, and the player's box uses the parsed integer left offset.

## Model

| member | source | states |
|---|---|---|
| Geometry.Min | game.js:39 | `Math.min`: the result is one of the two arguments and no larger than either |
| Geometry.Max | game.js:39 | `Math.max`: the result is one of the two arguments and no smaller than either |
| Geometry.Clamp | game.js:39 | the result is never below `min`; it is at most `max` when `min <= max`; it equals `val` inside the range and the nearer bound outside; `min` wins when the bounds cross |
| Geometry.RectsIntersect | game.js:172-179 | no contract; the four strict comparisons are given meaning by `Geometry.IntersectIffCommonInteriorPoint`, `RectsIntersectSymmetric` and `TouchingEdgesDoNotIntersect` |
| Geometry.RectsIntersectSymmetric | game.js:172-179 | the overlap test gives the same answer with its two boxes swapped |
| Geometry.TouchingEdgesDoNotIntersect | game.js:172-179 | boxes whose edges only touch, on either axis and either side, do not intersect (every comparison is strict) |
| Geometry.IntersectIffCommonInteriorPoint | game.js:172-179 | two boxes of positive size pass the test exactly when some point lies strictly inside both (independent meaning of the four comparisons) |
| Geometry.Hitbox | game.js:138-141 | the shrunk box has the same centre as the sprite's box, sides `f*w` by `f*h`, and lies inside the sprite's box when `0 <= f <= 1` |
| Seqs.MapFilter | game.js:113-129 | the shape of both movement loops; its own contract says the result is no longer than the input and every element passes the test; full meaning stated by `Seqs.MapFilterMeaning` |
| Seqs.MapFilterMeaning | game.js:113-119 | advancing every element and splicing out those failing the test keeps exactly the elements whose advanced value passes, each mapped once, in their original order |
| Seqs.BackwardStep | game.js:113-129 | one visit of either backward splice loop (bullets at game.js:113-119, enemies at game.js:123-129) at index i finds the untouched original at i; after writing and maybe splicing, the suffix from i is processed and the prefix before i is untouched (no element skipped or visited twice) |
| Entities.SizeOrDefault | game.js:138 | `v \|\| 100` is 100 when `v` is zero and `v` otherwise (so never zero) |
| Entities.TruncToInt | game.js:61 | `parseInt` of a pixel length is the integer part, truncated toward zero on both signs |
| Entities.BulletHitsEnemy | game.js:138-142 | no contract; the bullet's full 24 by 24 box against the enemy's centred 60% box (`Geometry.Hitbox`), a test whose meaning `Geometry.IntersectIffCommonInteriorPoint` states |
| Entities.EnemyHitsPlayer | game.js:157-165 | no contract; the player's centred 80% box against the enemy's centred 65% box, tested as for bullets |
| Entities.NewBullet | game.js:60-66 | the bullet starts at the player's right edge; its 24-pixel sprite is centred on the truncated top plus half the player's height, hence less than one pixel above the exact centre |
| Entities.DrawnRow | game.js:82 | `Math.floor(r * (gameH - 100))` for a draw in [0, 1) lies in `[0, gameH - 100]`, strictly below the upper bound when the span is positive |
| Entities.DrawnSpeed | game.js:83 | a drawn speed lies in `[enemyMinSpeed, enemyMaxSpeed)` |
| Entities.SpawnedEnemy | game.js:80-87 | a new enemy is at `x = gameW - 104`, is 100 by 100, and its speed and row lie in the drawn ranges |
| Entities.NextInterval | game.js:93 | the interval after a spawn is at least 600, never longer than before (from at least 600), exactly 25 shorter above 625 and 600 otherwise |
| Entities.NextMaxSpeed | game.js:94 | the maximum speed after a spawn is at most 11, never lower than before (from at most 11), exactly 0.06 higher below 10.94 and 11 otherwise |
| Collisions.LastHit | game.js:135-149 | the inner scan stops at an enemy the bullet hits with no hit above it, and finds none exactly when the bullet hits no enemy |
| Collisions.RemoveAt | game.js:144-145 | `splice(j, 1)` removes exactly one element, the one at j, and keeps every other element in its order: those before j at their index, those after j shifted down by one |
| Collisions.Resolve | game.js:132-150 | no contract; the nested pass as a function (the last bullet against all enemies, then the front against what is left), recording each hit as a (bullet, enemy) pair; meaning stated by `ResolveAccounting`, `ResolveSurvivors` and `ResolvePairs`, and tied to the in-place loops by `Engine.Game.ResolveBulletHits` |
| Collisions.ResolveAccounting | game.js:132-150 | with k hits, both lists shrink by exactly k; survivors are sub-multisets of the originals, so nothing is added and nothing is removed twice; no surviving bullet overlaps a surviving enemy |
| Collisions.ResolveSurvivors | game.js:142 | only overlaps remove anything: a bullet whose box meets no enemy's hitbox survives, and so does an enemy no bullet's box meets, with every copy |
| Collisions.ResolvePairs | game.js:142-147 | every recorded hit is a bullet whose box meets its enemy's hitbox; the removed bullets and the removed enemies are exactly the ones the hits name, so each removed bullet accounts for exactly one removed enemy and the other way round |
| Collisions.PairedKill | game.js:144-146 | proof step for `ResolvePairs`: a bullet destroying `es[j]` extends the pairing by one hit |
| Collisions.ResolveLast | game.js:132-150 | proof helper for the loop invariant (`ResolvedMiss`, `ResolvedHit`): `Resolve`'s own definition unfolded for `front + [b]`, not a separate property of the source |
| Collisions.ResolvedVisit | game.js:132-150 | one visit of the outer loop, hit or miss, keeps the loop invariant relating what remains to the whole pass |
| Collisions.OneBulletOneKill | game.js:142-147 | a bullet overlapping two enemies destroys only one, the higher-indexed one, because of the `break`; one hit is recorded |
| Rules.InitialWorld | game.js:10-25 | the initial state is running with assets not yet loaded, score 0, no entities or keys, interval 1100, maximum speed 8, `lastSpawn` = start time, `lastShot` = 0, and `playerY = gameH/2 - playerH/2` (game.js:215), so inside the arena when it fits |
| Rules.PlayerMoveStep | game.js:104-106 | only `playerY` changes; it ends in `[0, gameH - playerH]` whenever the player fits, for every combination of up and down; it is the exact moved position when that is in range, 0 when the move goes above the top, and `gameH - playerH` when it goes below the bottom; it is 0 when the player does not fit |
| Rules.ShotAllowed | game.js:71-73 | no contract; held fire key and `now - lastShot > 1000 / shotsPerSecond`; its use is stated by `Rules.ShootStep` and `Properties.TickShotIff` |
| Rules.ShootStep | game.js:70-77 | fires exactly when the fire key is held and strictly more than 500 ms have passed; then exactly one bullet (`NewBullet`) is appended and `lastShot` becomes `now`; otherwise nothing changes; nothing else ever changes |
| Rules.MovedBullets | game.js:113-119 | no contract; the bullet loop as `Seqs.MapFilter`; meaning stated by `Properties.MovedBulletsMeaning` |
| Rules.MovedEnemies | game.js:123-129 | no contract; the enemy loop as `Seqs.MapFilter`; meaning stated by `Properties.MovedEnemiesMeaning` |
| Rules.BulletMoveStep | game.js:113-119 | only the bullet list changes, and every survivor has `x <= gameW` |
| Rules.EnemyMoveStep | game.js:123-129 | only the enemy list changes, and every survivor has `x >= -30` |
| Rules.SpawnDue | game.js:90 | no contract; `now - lastSpawn >= nextEnemyInMs`; its use is stated by `Rules.SpawnStep` and `Properties.ApplyDifficulty` |
| Rules.SpawnStep | game.js:89-97 | when `now - lastSpawn >= nextEnemyInMs`, exactly one `SpawnedEnemy` is appended (drawn from the maximum speed before the raise), the interval and maximum speed ratchet and `lastSpawn` becomes `now`; otherwise nothing changes; nothing else ever changes |
| Rules.BulletHitStep | game.js:132-150 | only bullets, enemies and score change; with k = the score's rise, k >= 0 and both lists shrink by exactly k; there are k (bullet, enemy) pairs, each overlapping, naming exactly the removed bullets and removed enemies; a bullet overlapping no enemy and an enemy no bullet overlaps survive; survivors come from the original lists with no duplication |
| Rules.GameOverStep | game.js:187-188 | only the running flag changes, to false |
| Rules.PlayerStruck | game.js:155-165 | no contract; some enemy meets the player (`Entities.EnemyHitsPlayer`); its use is stated by `Rules.PlayerHitStep` |
| Rules.PlayerHitStep | game.js:152-169 | the game keeps running exactly when it was running and no enemy's 65% box meets the player's 80% box; nothing but the running flag changes |
| Rules.Tick | game.js:100-170 | a frame of a stopped game changes nothing; a running frame never lowers the score, leaves the player inside the arena, keeps the keys and asset flag, moves `lastShot` only to `now`, and leaves every bullet at `x <= gameW` and every enemy at `x >= -30` |
| Rules.ResetStep | game.js:194-206 | restart gives no entities, score 0, a centred player and a running game; it keeps the interval, maximum speed, both timestamps, the keys and the asset flag |
| Rules.KeyDownStep | game.js:44-50 | while running, a movement or fire press sets exactly its own flag, keeps the other two and changes nothing else; while stopped it is ignored; the restart press (game.js:208-212) is exactly `ResetStep` when stopped and ignored while running |
| Rules.KeyUpStep | game.js:52-57 | a release clears exactly the flag of its intent (none for restart), keeps the other two flags, whether or not the game is running, and changes nothing but the keys |
| Rules.Apply | game.js:44-226 | no contract; the event semantics: the keydown and keyup handlers (game.js:44-57), frames (game.js:100-170, run only after the success callback at game.js:219-222), the restart handler (game.js:208-212) and the failure callback (game.js:223-226); stated by `Properties.ApplyPreservesInv`, `ApplyRatchet`, `ApplyLastShot`, `StoppedIgnoresIntents` and the `Engine.Game` handlers |
| Rules.Run | game.js:181-185 | no contract; a session of events in order, as the frame loop and the handlers deliver them; stated by `Properties.RunPreservesInv`, `RunDifficulty`, `RunRatchet` and `SessionShotsSpacedApart` |
| Properties.MovedBulletsMeaning | game.js:113-119 | every surviving bullet moved right by exactly 8 with its row kept; one maps to one original position, in increasing order; original m survives exactly when `x + 8 <= gameW` |
| Properties.MovedEnemiesMeaning | game.js:123-129 | every survivor is its original moved left by its own speed, in order; original m survives exactly when `x - speed >= -30` |
| Properties.SingleHitScores | game.js:142-147 | one bullet overlapping one enemy: both are removed and the score rises by one |
| Properties.MissKeepsBoth | game.js:142 | one bullet and one enemy that do not overlap: the pass changes nothing |
| Properties.NoHitsSurvive | game.js:132-150 | after the hit pass, no surviving bullet overlaps any surviving enemy |
| Properties.InitialInv | game.js:10-25 | the initial state satisfies the session invariant `Inv` |
| Properties.SpawnKeepsCore | game.js:80-97 | a spawn keeps the ratchet bounds, and every enemy has size 100, an in-arena row and a speed in `[4.5, enemyMaxSpeed)` |
| Properties.EnemyMoveKeepsCore | game.js:123-129 | the enemy loop keeps every enemy's shape and leaves all of them right of the exit line |
| Properties.BulletHitKeepsInv | game.js:132-150 | the hit pass keeps the invariant |
| Properties.TickPreservesInv | game.js:100-170 | a frame keeps the invariant for any keys, clock reading and draws in [0, 1) |
| Properties.ApplyPreservesInv | game.js:44-57 | every event (frame, key press or release, loader callback) keeps the invariant |
| Properties.RunPreservesInv | game.js:181-185 | a whole session of frames and inputs keeps the invariant: player in the arena, interval in [600, 1100], maximum speed in [8, 11], score >= 0, entities inside their bounds |
| Properties.ApplyDifficulty | game.js:89-97 | an event moves the difficulty one level up exactly when it spawns an enemy |
| Properties.RunDifficulty | game.js:89-97 | over a session, the difficulty level rises by exactly the number of spawns, across restarts |
| Properties.DifficultyOfSession | game.js:93-94 | from the start, after N spawns the interval is `max(600, 1100 - 25N)` and the maximum speed `min(11, 8 + 0.06N)` |
| Properties.ApplyRatchet | game.js:93-94 | no event lengthens the interval or lowers the maximum speed, and both stay within 600 and 11 |
| Properties.RunRatchet | game.js:93-94 | the same monotone, bounded ratchet over a whole session, restarts included |
| Properties.TickShotIff | game.js:70-77 | a frame moves `lastShot` exactly when the game is running, fire is held and more than 500 ms have passed, and then to `now` |
| Properties.ShotsSpacedApart | game.js:68-77 | two consecutive frames that both fire are more than 500 ms apart |
| Properties.ApplyLastShot | game.js:70-77 | no event lowers `lastShot`; an event that moves it is a frame that fires, setting it to its time, more than 500 ms after the old value |
| Properties.RunLastShotRises | game.js:75 | `lastShot` never goes down over a session |
| Properties.RunConcat | game.js:181-185 | running two sessions one after the other is running their concatenation (a proof step for `SessionShotsSpacedApart`) |
| Properties.SessionShotsSpacedApart | game.js:70-77 | in any session, any two events that fire are frames, the later more than 500 ms after the earlier, whatever key events, restarts and frames lie between them |
| Properties.StoppedIgnoresIntents | game.js:45 | in a stopped game, frames and movement or fire presses change nothing |
| Properties.RestartKeepsDifficulty | game.js:208-212 | restart from a stopped game gives a fresh running board but keeps difficulty, both timestamps and the keys |
| Engine.Game.constructor | game.js:10-25 | the object starts as `InitialWorld` |
| Engine.Game.Shoot | game.js:60-66 | appends exactly `NewBullet` for the current top; nothing else changes |
| Engine.Game.MaybeShoot | game.js:68-77 | the new state is `ShootStep` of the old |
| Engine.Game.SpawnEnemy | game.js:80-87 | appends exactly `SpawnedEnemy` for the current maximum speed and draws |
| Engine.Game.MaybeSpawnEnemy | game.js:89-97 | the new state is `SpawnStep` of the old |
| Engine.Game.MoveBullets | game.js:113-119 | the in-place backward loop with splice yields `BulletMoveStep` of the old state |
| Engine.Game.MoveEnemies | game.js:123-129 | the in-place backward loop with splice yields `EnemyMoveStep` of the old state |
| Engine.Game.ScanEnemies | game.js:135-149 | the inner backward scan reports a hit exactly when `LastHit` finds one, and then splices out the bullet and that enemy and scores one; otherwise nothing changes |
| Engine.Game.ResolveBulletHits | game.js:132-150 | the nested in-place loops yield `BulletHitStep` of the old state |
| Engine.Game.ResolvePlayerHits | game.js:152-169 | the scan with early exit yields `PlayerHitStep` of the old state |
| Engine.Game.GameOver | game.js:187-188 | only `running` changes, to false |
| Engine.Game.Update | game.js:100-170 | the new state is `Tick` of the old, so everything proved about `Tick` holds for the object |
| Engine.Game.ResetGame | game.js:194-206 | the new state is `ResetStep` of the old |
| Engine.Game.OnKeyDown | game.js:44-50 | the new state is the key-press event applied to the old (restart handler at game.js:208-212 included) |
| Engine.Game.OnKeyUp | game.js:52-57 | the new state is the key-release event applied to the old |
| Engine.Game.OnAssetsLoaded | game.js:219-222 | only the asset flag is set, after which frames are delivered |
| Engine.Game.OnAssetsFailed | game.js:223-226 | only `running` is cleared |

`Rules.Apply` and `Rules.Run` carry no contract of their own. They are the event semantics that the `Properties` session lemmas and the `Engine.Game` handlers are stated against.

## Left out

- DOM and jQuery work is not modelled: element creation and removal, `.css` writes, score and status text, and the overlay. Only the numbers those elements mirror are kept.
- `preloadImages` is replaced by the `AssetsLoaded` and `AssetsFailed` events, because its image callbacks are browser I/O. Counting the remaining images is not modelled.
- `requestAnimationFrame` and `loop` become a sequence of `Frame` events in `Run`, because frame scheduling belongs to the host.
- `performance.now()` and `Math.random()` become the parameters `now`, `r1` and `r2`. The host's clock and random generator are outside the program.
- Numbers are exact reals, not IEEE-754 doubles. The monotonicity and the bounds of the difficulty ratchet do not depend on rounding. The exact forms do: `Entities.NextMaxSpeed`'s "exactly 0.06 higher" and `Properties.DifficultyOfSession`'s `min(11, 8 + 0.06N)` hold for exact reals. In doubles they hold only up to accumulated rounding; two spawns give 8.120000000000001, for example. The hitbox tests may likewise differ from doubles on boxes that meet within rounding error.
- Key-name mapping (`w`, `s`, `Enter`, `r`, lower-casing) becomes the `Intent` datatype, because it is input binding.
- The CSS round trip of the player's top is modelled only as truncation toward zero. The browser's serialisation of fractional pixel values is not modelled.
- `Engine.Game.ScanEnemies`: the inner loop of the bullet pass is its own method. The outer loop calls it, which splits the source's single nested loop in two; the order of visits and the splices are unchanged.
