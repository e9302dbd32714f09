# Space invaders: the simulation rules in Dafny

This project models the simulation core of `invaders/game.js`, a browser space-invaders
game. The game keeps its state in module-level variables: the arrays `invaders`, `bombs`
and `missiles`, the `defender` record, `score`, `gameOver` and `totalInvadersCreated`. Each
animation frame, `gameLoop` may spawn a wave of four invaders, then runs three in-place
update passes (invaders, bombs, missiles). A key handler moves the defender and fires
missiles.

The project is split into six modules:

- `Geometry` (`geometry.dfy`): the `Box` record and `checkCollision` as `Collides`.
- `Entities` (`entities.dfy`): the tuning constants, the canvas and sprite sizes
  (`Config`), the invader record and the whole state as a value (`GameState`), and the
  record builders of `spawnInvaders`, `spawnBomb` and the fire key.
- `Rules` (`rules.dfy`): each JS function as a pure function on `GameState`. Each
  forward index loop is unrolled into recursion on the loop index. That keeps its early
  `return`, its `break` and its splice-then-advance skipping. `Consistent` is the
  invariant of the game's variables.
- `Properties` (`properties.dfy`): lemmas about those functions. They cover the caps,
  clamping, score bookkeeping, invader shapes, where bombs come from, and monotone
  score and `gameOver`.
- `Invaders` (`game.dfy`): class `Game` holds the module-level variables as fields. It
  has one method per JS function, written with the source's loops. The loop bodies of
  `updateInvaders` and `updateMissiles` are methods of their own (`UpdateInvader`,
  `UpdateMissile`), so each proof stays small. The constructor builds `Start` and
  establishes `Valid()`. `HandleInput`, `SpawnInvaders`, `UpdateInvaders`, `UpdateBombs`,
  `UpdateMissiles` and `GameLoop` are each proved to leave `State()` equal to the
  matching `Rules` function of the old state, and to keep `Valid()`. The two loop-body
  methods are proved equal to one turn of their pass (`UpdateMissile` to
  `Rules.MissileStep`). `SpawnBomb` appends `NewBomb` of its invader. These three keep
  no invariant on their own: called outside their pass, `SpawnBomb` could push the bombs
  past maxBombs + 1.
- `Scenarios` (`scenarios.dfy`): concrete runs on a 100 x 200 canvas. They show
  behaviour that is easy to misread in the code.

`Math.random()` is injected. A draw is a `Unit` (a real in [0, 1)). A pass takes a
function from the invader's slot (or its position in the wave) to the draw used there.
`bombCounter` is an exact `real`: it starts at `0.8 + 0.05 * u` and drops by `0.01` per
tick.

## Model

| member | source | states |
|---|---|---|
| Geometry.Collides | invaders/game.js:41-48 | the four strict edge comparisons; a collision needs the two widths and the two heights to add up to at least 2 |
| Geometry.CollidesSymmetric | invaders/game.js:41-48 | swapping the two objects gives the same answer |
| Geometry.SharedPixelCollides | invaders/game.js:41-48 | two boxes with a common pixel collide, whatever their sizes |
| Geometry.CollidesIffSharedPixel | invaders/game.js:41-48 | for boxes of positive size, colliding holds exactly when they share a pixel |
| Geometry.FlatBoxesNeverCollide | invaders/game.js:41-48 | two boxes that are both zero-width, or both zero-height, never collide |
| Geometry.EmptyBoxInsideCollides | invaders/game.js:41-48 | a 0 x 0 box strictly inside a 10 x 10 box does collide with it |
| Entities.SetInvaderBombCounter | invaders/game.js:156-158 | a fresh countdown lies in [0.8, 0.85) |
| Rules.Remove | invaders/game.js:94 | splice(k, 1): one element shorter, elements before k kept, later ones shifted down by one, same multiset less the removed element |
| Rules.CountDown | invaders/game.js:70-77 | the bomb step keeps the number of invaders |
| Rules.FirstHit | invaders/game.js:115-122 | the inner missile scan finds the first invader at or after j that the missile overlaps; none before it overlaps; it returns the length when none does |
| Properties.InputIgnoredAfterGameOver | invaders/game.js:127-128 | once gameOver is set, any key leaves the state unchanged |
| Properties.OtherKeysIgnored | invaders/game.js:130-154 | a key other than the two arrows and space changes nothing |
| Properties.ArrowKeysMoveDefender | invaders/game.js:131-142 | an arrow changes only defender.x, by at most defenderSpeed in the key's direction, and keeps it within [0, canvas.width - 20] |
| Properties.FireAddsOneMissile | invaders/game.js:143-152 | space appends exactly one missile at (defender.x + 5, defender.y - 10) when fewer than maxMissiles are in the air, and changes nothing otherwise |
| Properties.AfterInputConsistent | invaders/game.js:127-155 | the key handler keeps the invariant, including the missile cap and the defender on the canvas |
| Properties.SpawnAppendsWave | invaders/game.js:162-179 | a wave appends min(4, maxInvaders - totalInvadersCreated) invaders after the old ones; the k-th is at x = k * (width or 30, plus 10), y = 0, direction 1, with its own fresh countdown; the budget grows by that count, never past maxInvaders; nothing else changes |
| Properties.SpawnExhausted | invaders/game.js:163 | once maxInvaders invaders have been created, spawning adds nothing |
| Properties.AfterSpawnConsistent | invaders/game.js:160-179 | spawning keeps the invariant; new invaders have direction 1 and row 0 |
| Properties.AdvanceShape | invaders/game.js:58-63 | the move-and-bounce step keeps direction in {1, -1} and y a non-negative multiple of 40 |
| Properties.InvaderPassFrame | invaders/game.js:56-86 | the invader pass keeps missiles, score, defender and budget; keeps the invader count and the invaders before i; never clears gameOver; only appends bombs; appends none when more than maxBombs are live and never goes past maxBombs + 1 |
| Properties.InvaderPassShapes | invaders/game.js:56-86 | after the pass every invader still has direction in {1, -1} and a row that is a non-negative multiple of 40 |
| Properties.CountDownDrops | invaders/game.js:70-76 | a bomb that the countdown step adds is spawnBomb's box for the moved invader |
| Properties.InvaderPassDrops | invaders/game.js:56-86 | from index i on, every bomb the pass appends sits at (x + 10, y + 20) of some invader of the result |
| Properties.InvaderPassDropsBombs | invaders/game.js:70-76 | every bomb appended by a whole pass sits at (x + 10, y + 20) of an invader of the resulting array |
| Properties.InvaderPassConsistent | invaders/game.js:56-86 | the invader pass keeps the invariant |
| Properties.BombPassFrame | invaders/game.js:89-104 | the bomb pass changes only bombs and gameOver; it never adds a bomb and never clears gameOver |
| Properties.BombPassConsistent | invaders/game.js:89-104 | the bomb pass keeps the invariant |
| Properties.MissileStepFrame | invaders/game.js:108-123 | one missile's turn changes only invaders, missiles and score; it removes at most one missile, and an invader only together with that missile and for one point; the invaders left are a sub-multiset of those before |
| Properties.MissilePassFrame | invaders/game.js:107-125 | the missile pass changes only invaders, missiles and score; score + invaders.length is unchanged and score never falls; no missile is added; at most one invader goes per missile removed |
| Properties.MissilePassOnlyRemoves | invaders/game.js:115-122 | the invaders left are a sub-multiset of those before: the pass never adds or alters an invader |
| Properties.MissilePassConsistent | invaders/game.js:107-125 | the missile pass keeps the invariant |
| Properties.TickConsistent | invaders/game.js:231-248 | one frame keeps the invariant: at most maxMissiles missiles, at most maxBombs + 1 bombs, budget at most maxInvaders, score + invaders.length == totalInvadersCreated, shapes, defender on the canvas |
| Properties.TickMonotone | invaders/game.js:231-248 | across a frame score never falls and gameOver is never cleared; the defender does not move; the budget grows by the wave size exactly when the game was running and no invader had y == 0, and otherwise stays |
| Properties.YouWinBeforeLastWave | invaders/game.js:223 | with the banner test true and fewer than maxInvaders created, the next frame spawns more invaders |
| Properties.WonIsFinal | invaders/game.js:223 | once all maxInvaders are created and destroyed, a frame keeps the score at maxInvaders and adds no invader; unless a bomb ends the game, the game stays won |
| Properties.StartConsistent | invaders/game.js:272-277 | the state built by startGame satisfies the invariant |
| Scenarios.MissileHitsFirstOverlap | invaders/game.js:115-121 | a missile over two invaders destroys only the first in array order, for one point |
| Scenarios.FloorRemovalSkipsNextBomb | invaders/game.js:90-96 | after a bomb is spliced off the floor, the bomb shifted into its slot does not move that frame |
| Scenarios.GameOverDoesNotFreeze | invaders/game.js:231-248 | with gameOver set, a frame spawns nothing, yet the bombs fall and the invaders march |
| Scenarios.YouWinAfterFirstWave | invaders/game.js:223 | shooting the last invader of the first wave makes the banner test pass with only 4 invaders created |
| Invaders.Game.constructor | invaders/game.js:272-277 | the defender is centred at the floor, the other variables start empty or zero, and the invariant holds |
| Invaders.Game.HandleInput | invaders/game.js:127-155 | the new state is AfterInput of the old one, and the invariant is kept |
| Invaders.Game.SpawnInvaders | invaders/game.js:162-179 | the loop leaves the state equal to AfterSpawn of the old one, and the invariant is kept |
| Invaders.Game.SpawnBomb | invaders/game.js:182-190 | exactly one bomb is appended, at (x + 10, y + 20) of the invader |
| Invaders.Game.UpdateInvaders | invaders/game.js:56-86 | the loop, which stops when a turn returns early, leaves the state equal to InvaderPass of the old one, and the invariant is kept |
| Invaders.Game.UpdateInvader | invaders/game.js:58-83 | one turn of the loop: the new state is the moved invader written back with gameOver set at the floor, or else the countdown step of Rules, with gameOver set exactly when the moved invader touches the defender; it reports whether the pass returns |
| Invaders.Game.UpdateBombs | invaders/game.js:89-104 | the loop with splice and early return leaves the state equal to BombPass of the old one, and the invariant is kept |
| Invaders.Game.UpdateMissiles | invaders/game.js:107-125 | the loop, which advances the index after every turn, leaves the state equal to MissilePass of the old one, and the invariant is kept |
| Invaders.Game.UpdateMissile | invaders/game.js:109-122 | one turn of the outer loop, with the inner scan: the new state is MissileStep of the old one |
| Invaders.Game.AnyInvaderAtTop | invaders/game.js:233-239 | the scan answers true exactly when some invader has y == 0 |
| Invaders.Game.GameLoop | invaders/game.js:231-248 | one frame without drawing leaves the state equal to Tick of the old one, and the invariant is kept |

## Left out

- Drawing (`draw`, `drawImage`, the canvas context) is not modelled. The "You Win!" test
  of `draw` is exposed as the predicate `Rules.ShowsYouWin`.
- Image loading, the Promises of `loadAllImages`, the `keydown` listener registration
  and `requestAnimationFrame` are browser I/O. They are not modelled. Image sizes are the
  fixed `Config` fields; an image that is not loaded has size 0.
- `Math.random()` is an injected oracle of `Unit` draws per invader slot or wave
  position. The model does not fix whether the same slot draws again in a later frame.
- `bombCounter` is an exact real. IEEE double rounding of `0.8 + 0.05 * u` and of the
  repeated `- 0.01` is not modelled, so the exact frame on which a countdown reaches 0
  may differ from the browser's by rounding.
- Coordinates are integers. `canvas.width / 2 - 10` in `startGame` is fractional in JS
  for odd widths; `Invaders.Game.constructor` uses integer division there.
- Arrays hold records by value. The source never aliases a record between two arrays, so
  nothing is lost.
- `undefined` or `NaN` sizes (a record read before its image loads) are not modelled.
  Sizes are natural numbers.
- Geometry.FlatBoxesNeverCollide: the stronger reading "an object with zero width or
  height collides with nothing" does not hold for `checkCollision`.
  `Geometry.EmptyBoxInsideCollides` is the counterexample. Only two boxes that are flat
  on the same axis are proved never to collide.
- A board that freezes once the game is over, and removal loops that do not skip the
  element shifted into a freed slot, are not what the code does. The model follows the
  code; `Scenarios.GameOverDoesNotFreeze` and `Scenarios.FloorRemovalSkipsNextBomb` show
  the actual behaviour.

## Findings

| source | as written | input that shows it | evidently intended | confidence | as-written member | corrected member |
|---|---|---|---|---|---|---|
| invaders/game.js:223 | "You Win!" is drawn whenever the game is not over and `invaders` is empty | the last alive invader of the first wave is shot while `totalInvadersCreated` is 4; the banner shows until the next frame spawns a wave | the win banner only once all `maxInvaders` invaders have been created and destroyed | medium, not executed | Scenarios.YouWinAfterFirstWave | Properties.WonIsFinal |
