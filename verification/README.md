# Endless runner game step, in Dafny

This project models the simulation core of `game.js`, a browser side-scroller. It covers:
- the double jump;
- the per-frame `update` (gravity and landing, spawn timers, the two collision loops that `splice` while they iterate, the off-screen filters, score, the day/night tick and the speed ramp);
- the coin/heart life economy;
- the overlap test `aabb`, `clamp` and `resetGame`.

Modules:

- `Geometry` (geometry.dfy): boxes, `aabb` as `Overlaps` and `clamp` as `Clamp`.
- `Economy` (economy.dfy): what a coin or a heart does to score, coins, lives and maximum lives (`Collect`), and sequences of pickups (`CollectAll`).
- `Entities` (entities.dfy): spiders (the obstacles) and items, how one frame moves them, and how they are spawned from the frame's random draws.
- `Sweep` (sweep.dfy): `Array.prototype.filter` as `Filter`, and the collision loop.
  - Both loops of `update` have one shape: move `xs[i]`; on a collision, apply the effect and `splice(i, 1); i--`.
  - `Pass` states by recursion what such a walk computes.
  - `SweepInPlace` is the index loop itself, proved equal to `Pass`.
  - `ObstaclePass` and `ItemPass` are the two instances.
- `Simulation` (world.dfy): the run state as a value `World` and its invariant `Inv`.
  - `Initial` is what `resetGame` sets, and `Jumped` is what `jump` does.
  - `Step` is one `update`, composed of the stages `Physics`, `Spawn`, `MoveObstacles`, `MoveItems`, `Cleanup` and `Advance`, in the source's order.
- `JumpGame` (game.dfy): class `Game`, whose fields are the module-level variables of `game.js`.
  - Its methods `Jump`, `Reset` and `Update` change them in place.
  - Each method is proved to produce `Jumped`, `Initial` and `Step` of the old state, and to keep `Inv`.
  - `Update` calls one method per stage of `update`.
- `Runs` (runs.dfy): many frames in a row (`Run`), as the animation loop calls `update`.

Numbers:
- Physics values (`0.65`, `-12.5`, `0.2`, `0.82`, positions, speed) are Dafny `real`s. These are exact rationals, not IEEE doubles, so rounding is not modelled.
- Counters (`frame`, `score`, `coins`, `lives`, `maxLives`, `jumpsLeft`) are unbounded integers.

`Math.random()` results are passed in as a `Draws` record per frame. `Math.sin` is a parameter `sin: real -> real`.

Invariant kept by every operation (`Inv`):
- `1 <= maxLives <= 10`, `lives <= maxLives` and `0 <= coins < 10`;
- `0 <= jumpsLeft <= 2`;
- the player is never below the ground line;
- at least one life while the game runs.

Behaviour of `game.js` the model keeps as written:
- `lives` has no lower bound (game.js:146-147). The obstacle loop does not stop when it raises game over, so two spiders that hit in the same frame at one life leave `lives == -1` (`Simulation.DoubleHitOverdraws`). This is possible in the code but not in play: spiders spawn 70 frames apart (at least 350 units at speed 5 or more), and all of them scroll by the same `speed`. A swinging spider also wobbles sideways by `0.6 * sin` per frame, but over the small phase steps that wobble adds up to about 19 units at most. So two spiders never overlap the 52.48-wide hitbox at once.
- The rest of `update` still runs in the frame that raises game over. The item loop runs too, so a heart can set `lives = maxLives` while `gameOver` stays true, and the tenth coin heals with `clamp(lives + 1, 0, maxLives)`, which lifts negative lives to 0.
- Landing does not check the direction of motion: the player lands whenever the position after motion is at or below the ground line (game.js:112).
- Hearts spawn on a fixed 1200-frame timer (game.js:132).

## Model

| member | source | states |
|---|---|---|
| `Geometry.Overlaps` | game.js:90-93 | for boxes of positive size, `aabb` holds iff on each axis the two intervals share a stretch of positive length (the larger start is below the smaller end) |
| `Geometry.OverlapsIffSharedPoint` | game.js:90-93 | for boxes of positive size, `aabb` holds iff the two open rectangles share a point |
| `Geometry.TouchingIsNotOverlap` | game.js:90-93 | the test is strict: boxes that only share an edge do not overlap |
| `Geometry.Clamp` | game.js:94 | with `lo <= hi`, the result lies in `[lo, hi]`, equals `v` when `v` is in range, and is the violated bound otherwise |
| `Economy.Collect` | game.js:159-173 | a pickup adds 100 to the score for a coin and nothing for a heart; a coin never moves the maximum; a heart leaves the counter alone and lives equal to the new maximum |
| `Economy.CoinPickup` | game.js:159-168 | a coin adds exactly 100 to the score; the counter becomes `(coins + 1) % 10`; on the wrap, lives become `clamp(lives + 1, 0, maxLives)`, so lives below -1 rise to 0; otherwise lives and the maximum do not change |
| `Economy.HeartPickup` | game.js:169-173 | a heart sets `maxLives = min(maxLives + 1, 10)` and `lives = maxLives`, whatever lives were; score and coins stay |
| `Economy.CollectKeepsBounded` | game.js:159-173 | any pickup keeps `1 <= maxLives <= 10`, `lives <= maxLives` and `0 <= coins < 10`, and never lowers lives, maximum or score |
| `Economy.CollectAll` | game.js:153-177 | the pickups of a frame in loop order: a run without coins leaves score and counter unchanged, and a run that ends with a heart leaves lives at the maximum |
| `Economy.CollectAllKeepsBounded` | game.js:153-177 | any run of pickups keeps those bounds and never lowers lives or the maximum |
| `Economy.CollectAllScore` | game.js:159-162 | a run of pickups adds exactly 100 per coin to the score |
| `Economy.CoinCounter` | game.js:162-167 | after any run of pickups, the counter is `(coins + number of coins) % 10` |
| `Economy.CoinHealing` | game.js:164-167 | with coins only and `g = (coins + n) / 10` wraps, lives stay put if `g == 0` and otherwise become `min(max(lives + 1, 0) + g - 1, maxLives)`: one heal per tenth coin, the first one lifting negative lives to 0, capped at the maximum |
| `Economy.MaxLivesWithoutHearts` | game.js:159-168 | coins never change the maximum |
| `Economy.TenCoinsAtFullHealth` | game.js:159-168 | ten coins at 3 of 3 lives: the counter wraps to 0, lives stay 3, the score rises by 1000 |
| `Economy.HeartAtOneLife` | game.js:169-173 | one heart at 1 of 3 lives gives 4 of 4 |
| `Entities.MoveSpider` | game.js:136-142 | a frame keeps a spider's mode and size; a dropping spider scrolls by `speed` and its `y` becomes `min(y + vy, 350 - h)`; a swinging spider's phase advances by 0.08 |
| `Entities.SwingWobbleBounded` | game.js:140 | with sine values in [-1, 1], a swinging spider strays at most 0.6 from its scrolled position on each axis |
| `Entities.MoveItem` | game.js:154 | an item moves left by exactly `speed`, nothing else changes |
| `Entities.SpawnSpider` | game.js:119-130 | a spider spawns at `x = 800` with size 48 and the drawn phase, swings iff its draw is below 0.6, and hangs at a whole number; for draws in [0, 1) that number is in [100, 259], `amp` in [22, 46) and `vy` in [4, 6) |
| `Entities.SpawnCoin` | game.js:131 | a coin spawns at `x = 800` with radius 16; for a draw in [0, 1) its `y` is in (140, 260] |
| `Entities.SpawnHeart` | game.js:132 | a heart spawns at `x = 800` with radius 16; for a draw in [0, 1) its `y` is in (140, 240] |
| `Sweep.Filter` | game.js:179-180 | `filter` keeps only accepted elements of the input, and never more elements than the input has |
| `Sweep.FilterKeepsAccepted` | game.js:179-180 | an element is in the filtered list iff it was in the list and is accepted |
| `Sweep.FilterMembers` | game.js:179-180 | the same membership equivalence, for all elements at once |
| `Sweep.FilterAppend` | game.js:179-180 | `filter` distributes over concatenation, so the kept elements stay in their relative order |
| `Sweep.FilterIdempotent` | game.js:179-180 | filtering twice is filtering once |
| `Sweep.Moved` | game.js:136-138 | moving a list moves every element exactly once, in place and in order |
| `Sweep.Pass` | game.js:136-177 | a collision walk never grows the list |
| `Sweep.PassKept` | game.js:136-177 | the survivors of a walk with splice are exactly the moved elements that do not collide, in their original order |
| `Sweep.PassState` | game.js:136-177 | the state after a walk is the effects of the colliding moved elements, applied once each in list order |
| `Sweep.SweepInPlace` | game.js:136-150 | the index loop with `splice(i, 1); i--` computes exactly `Pass` |
| `Sweep.Hit` | game.js:146-147 | a hit costs exactly one life and raises game over iff it was raised already or lives are now at most 0 |
| `Sweep.HitsCost` | game.js:145-147 | n hits cost exactly n lives and raise game over iff there was a hit and lives end at most 0 |
| `Sweep.ObstaclePass` | game.js:136-150 | the obstacle loop never adds a spider, never raises lives and never clears game over |
| `Sweep.ObstaclePassKept` | game.js:136-150 | the obstacle loop keeps exactly the moved spiders that miss the player's hitbox, in order |
| `Sweep.ObstaclePassLives` | game.js:145-149 | after the obstacle loop, lives fell by the number of spiders removed, and game over was raised iff a hit took lives to 0 or below |
| `Simulation.DoubleHitOverdraws` | game.js:136-150 | two spiders that both hit the player standing on the ground at 1 life leave `lives == -1` with game over |
| `Sweep.ItemPass` | game.js:153-177 | the item loop never adds an item |
| `Sweep.PickupsCollect` | game.js:158-175 | applying the pickups of a run of items equals `CollectAll` over their kinds |
| `Sweep.ItemPassKept` | game.js:153-177 | the item loop keeps exactly the moved items the player does not touch, in order |
| `Sweep.ItemPassWallet` | game.js:153-177 | after the item loop, the counters equal the touched items' pickups applied in loop order |
| `Simulation.Initial` | game.js:96-102 | the restart state satisfies the invariant, has score, frame, tick and coins 0, no entities, `lives == maxLives == 3`, speed 5, no game over, and the player at rest on the ground line with 2 charges |
| `Simulation.Jumped` | game.js:73-79 | a jump changes nothing iff the game is over or no charge is left; otherwise it sets `dy = -12.5`, spends exactly one charge and changes nothing else |
| `Simulation.JumpKeepsInv` | game.js:73-79 | a jump keeps the invariant and never touches game over |
| `Simulation.Fall` | game.js:109-114 | after physics the player is never below the ground line; it is on the line iff `y + dy + 0.65` reached it, and then it is at rest with 2 charges; otherwise gravity and motion are applied and the charges are unchanged |
| `Simulation.PlayerHitbox` | game.js:143-144 | the hitbox is the 64x64 sprite scaled by 0.82 about its centre, strictly inside the sprite |
| `Simulation.SpawnObstacles` | game.js:119-130 | a spider is appended exactly when `frame % 70 == 0`, behind the unchanged existing spiders, and it is the one `SpawnSpider` builds from the draws |
| `Simulation.SpawnItems` | game.js:131-132 | a coin is appended exactly when `frame % 180 == 0` and a heart exactly when `frame % 1200 == 0`, behind the unchanged existing items, coin before heart |
| `Simulation.Physics` | game.js:108-114 | physics changes only the player, and leaves it at or above the ground line |
| `Simulation.Spawn` | game.js:116-132 | the frame grows by one; at most one spider and two items are appended, behind the unchanged existing ones; nothing else changes |
| `Simulation.MoveObstacles` | game.js:135-150 | the obstacle loop changes only obstacles, lives and game over; it never adds a spider, each removed spider costs exactly one life, and game over once raised stays raised |
| `Simulation.MoveItems` | game.js:152-177 | the item loop changes only items and the counters; it never adds an item, and the score grows by 100 per coin touched |
| `Simulation.Cleanup` | game.js:179-180 | afterwards exactly the spiders and items that were on screen remain; nothing else changes |
| `Simulation.Advance` | game.js:182-185 | score and tick grow by one; the speed grows by exactly 0.2 on frames divisible by 300 and stays the same otherwise; nothing else changes |
| `Simulation.Step` | game.js:105-186 | one `update` leaves the state unchanged exactly when the game is over |
| `Simulation.GameOverIsFinal` | game.js:105-106 | once the game is over, neither `update` nor `jump` changes anything, so only `resetGame` clears game over |
| `Simulation.MoveObstaclesKeepsInv` | game.js:136-150 | the obstacle loop keeps the invariant |
| `Simulation.MoveItemsKeepsInv` | game.js:153-177 | the item loop keeps the invariant |
| `Simulation.StepKeepsInv` | game.js:105-186 | every `update` keeps the invariant |
| `Simulation.StepPhysics` | game.js:109-114 | in a running frame, both charges come back iff the player lands; only then is the player on the line at rest; in the air the charges are untouched |
| `Simulation.StepCounters` | game.js:183-185 | in a running frame, `frame` and `t` grow by exactly 1, and `speed` grows by 0.2 iff the new frame is divisible by 300 |
| `Simulation.StepScore` | game.js:159-183 | in a running frame, the score grows by exactly 1 plus 100 for each coin picked up |
| `Simulation.StepCleansUp` | game.js:179-180 | after a frame, every spider and item has its right edge right of the left border |
| `JumpGame.Game.constructor` | game.js:57-67 | the page-load state is the reset state, and it satisfies the invariant |
| `JumpGame.Game.Jump` | game.js:73-79 | the fields become `Jumped` of the old state, and the invariant is kept |
| `JumpGame.Game.Reset` | game.js:96-102 | the fields become the initial state from any state |
| `JumpGame.Game.Update` | game.js:105-186 | the fields become `Step` of the old state, and the invariant is kept |
| `JumpGame.Game.ApplyPhysics` | game.js:109-114 | the fields become `Physics` of the old state |
| `JumpGame.Game.SpawnEntities` | game.js:116-132 | the fields become `Spawn` of the old state |
| `JumpGame.Game.MoveObstacleList` | game.js:136-150 | the fields become `MoveObstacles` of the old state |
| `JumpGame.Game.MoveItemList` | game.js:153-177 | the fields become `MoveItems` of the old state |
| `JumpGame.Game.RemoveOffscreen` | game.js:179-180 | the fields become `Cleanup` of the old state |
| `JumpGame.Game.AdvanceWorld` | game.js:183-185 | the fields become `Advance` of the old state |
| `Runs.RunKeepsInv` | game.js:262-269 | the invariant holds after any number of frames |
| `Runs.RunWhenOver` | game.js:105-106 | after game over, any number of frames changes nothing |
| `Runs.RunCounters` | game.js:183-185 | over n frames ending with the game running, `frame` and `t` grow by n, and `speed` grows by 0.2 per multiple of 300 passed |
| `Runs.SpeedAfter300Frames` | game.js:185 | 300 frames from a fresh start without game over take the speed from 5 to exactly 5.2 |
| `Runs.RunScore` | game.js:183 | over n frames ending with the game running, the score grows by at least n |

## Left out

- Rendering (`drawBackground`, `drawSprites`, `drawUI`, game.js:189-257): only canvas side effects.
- Day/night blend phase (game.js:191): rendering only. The tick `t` it reads is modelled.
- Background scroll offset `bgScroll` (game.js:70, 101, 184): visual only. Its update and reset are not modelled.
- Asset loading and its error message (game.js:32-46, 260-278): asynchronous browser I/O.
- Keyboard and pointer wiring (game.js:80-87) and the mobile gesture lock (game.js:11-16): platform events. Only the `jump` and `resetGame` they call are modelled. `requestAnimationFrame` is modelled only as `Runs.Run`, one `update` per frame.
- `Math.random` (game.js:121-132): the model takes the draws as a `Draws` input. A spider's starting phase (a draw times 2π) is taken as the input itself, since π is not rational.
- `Math.sin` (game.js:140): a parameter `sin`, assumed to be the same function in every frame. Only `Entities.SwingWobbleBounded` assumes anything of its range.
- Floating point: all non-integer arithmetic is exact rational arithmetic. At IEEE rounding boundaries a comparison (landing, overlap, off-screen) may decide differently in the browser. Above 2^53 the browser's counters lose precision; here they are unbounded.
- Object identity: spiders and items are values. The in-place `o.x -= speed` on the element at index `i` is modelled as replacing that element. Nothing else holds references to them, so no aliasing is lost.
- Player `x`, `w` and `h` (game.js:57): never change, so they are constants. The ground line `300 + (64 - h)` is therefore 300.
- The spider `type` tag (game.js:124, 139): every obstacle is a spider, so the tag is implicit. `amp` is drawn and stored but no motion reads it.
- `Runs.RunCounters`: stated only for runs that end with the game still running. Once game over is raised, the counters stop.
