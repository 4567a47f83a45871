# Runner game simulation step, modelled in Dafny

This project models the core of a side-scrolling runner game written in TypeScript and React.
A runner is chased by a dog. It jumps or double-jumps over obstacles, collects coins and picks
up shield, magnet and fever power-ups. Distance and coins add up to a score. Two parts are
modelled:

- **The per-frame simulation step** of `src/components/GameCanvas.tsx`: the `PLAYING` branch of
  `loop`, together with `resetGame`, `handleJump`, `createParticles`, `checkCollision` and the
  three-state game state machine (MENU, PLAYING, GAME_OVER).
- **The end-of-run commentary** of `src/services/geminiService.ts`. It picks a title and a
  comment from one of four fixed pools, chosen by the distance bracket.

Files:

- `constants.dfy`: the numbers of `src/constants.ts`, plus the literals the step uses inline.
- `types.dfy`: the entities of `src/types.ts` as datatypes.
- `collision.dfy`: `checkCollision` and its lemmas.
- `simulation.dfy`: the step as pure functions on a `World` value that holds every ref of the
  component. There is one function per phase, applied in the source's order by `Tick`. The
  four list passes walk their list from the last index down, as the source's reverse-index
  `for` loops do.
- `simulation_proofs.dfy`: the properties of those functions.
- `game.dfy`: class `Game`, whose fields are the refs. Its methods update those fields in place,
  phase by phase, using the source's reverse-index loops with `splice`. Each method is proved to
  compute the function in `simulation.dfy` that specifies it.
- `commentary.dfy`: the commentary lookup.

The model follows the code as written, including its quirks:

- Contact with the dog sets GAME_OVER but does not end the tick. Spawning and every collision
  pass still run that tick. From the next frame on, nothing is simulated.
- `invincible` is computed once per tick. A shield spent on one obstacle therefore does not
  protect against a second obstacle met in the same pass (`SecondHitInSameTick`).
- The spawn gate looks at the last element of the obstacle list. An obstacle pushed by the
  spawner is scrolled in the same tick (`LastObstacleMovesFirst`).
- Obstacles are culled at `x + width < 0`; coins and power-ups at `x + width < -50`. The fever
  and shield branches remove the obstacle and skip the cull check.
- `checkCollision` does not shrink the first rectangle's bottom edge, so it is asymmetric.
- The score is computed before this tick's coin pickups, so it lags them by one tick.
- A particle moves, then loses 0.05 life, then gains 0.2 downward speed. A fresh particle is
  removed by its 20th update.
- A water ditch lies 10 units below the ground line. The hitbox test needs the runner's bottom
  edge to pass the ditch's top plus the buffer, which a runner on or above the ground never
  does. So a ditch can never be hit, and the ditch's splash branch of the knockback is dead
  code (`DitchIsOutOfReach`).

`Math.random()` draws are parameters: a `SpawnRolls` record for the spawner, and a function
from particle index to velocity pair for particle bursts. `Math.sqrt` (the magnet's pull) and
`Math.sin` (the bobbing of coins and power-ups) are opaque functions of a `Host` value. Numbers
are `real`.

## Model

| member | source | states |
|---|---|---|
| `Collision.CollidesWithinBoxes` | src/components/GameCanvas.tsx:263-272 | the shrunk hitbox test reports a hit only where the two rectangles really overlap |
| `Collision.CollidesIsAsymmetric` | src/components/GameCanvas.tsx:263-272 | swapping the arguments changes the answer, because the first rectangle's bottom edge is not shrunk |
| `Simulation.WidthRemainder` | src/components/GameCanvas.tsx:554-555 | JavaScript `%` by CANVAS_WIDTH: the result differs from the operand by a whole number of widths, lies in [0, CANVAS_WIDTH) for a non-negative operand (in (-CANVAS_WIDTH, 0] for a negative one), equals the operand below one width and the operand minus one width between one and two widths |
| `SimulationProofs.BurstShape` | src/components/GameCanvas.tsx:246-260 | `createParticles` appends exactly `count` particles at the origin, the k-th from the k-th velocity draw, with life 1 |
| `SimulationProofs.BurstKeepsParticlesValid` | src/components/GameCanvas.tsx:246-260 | appending a burst keeps every particle's life in (0, 1] |
| `SimulationProofs.ParticlePassKeepsValid` | src/components/GameCanvas.tsx:542-552 | the particle pass keeps lives in (0, 1] and never adds particles |
| `SimulationProofs.ParticlePassIsSurvivors` | src/components/GameCanvas.tsx:542-552 | the reverse-index pass with splicing leaves exactly the updated particles whose life stays positive, in their original order |
| `SimulationProofs.SurvivorsMembers` | src/components/GameCanvas.tsx:542-552 | a particle is left after the pass iff it is the update of a particle of the list and its life is still positive |
| `SimulationProofs.ParticleLifetime` | src/components/GameCanvas.tsx:542-552 | a fresh particle survives 19 updates with life 1 − 0.05k and is removed by the 20th |
| `SimulationProofs.ResetIsIdempotent` | src/components/GameCanvas.tsx:177-213 | `resetGame` twice is `resetGame` once |
| `SimulationProofs.InitialWorldIsReset` | src/components/GameCanvas.tsx:83-127 | the refs as first created already equal their reset values and satisfy the invariant |
| `SimulationProofs.ResetIsValid` | src/components/GameCanvas.tsx:177-213 | after a reset the runner is grounded on the ground line, does not overlap the dog, and the state satisfies the invariant |
| `SimulationProofs.StartRestartsRun` | src/components/GameCanvas.tsx:815-822 | start from MENU or GAME_OVER enters PLAYING with distance, coins, score and speed at their initial values and all four lists empty; from PLAYING it changes nothing |
| `SimulationProofs.FrameOnlyWhilePlaying` | src/components/GameCanvas.tsx:285 | outside PLAYING a frame leaves the world unchanged; in PLAYING it runs the step |
| `SimulationProofs.JumpOnlyWhilePlaying` | src/components/GameCanvas.tsx:216-217 | `handleJump` does nothing outside PLAYING |
| `SimulationProofs.JumpSequence` | src/components/GameCanvas.tsx:216-233 | from the ground: first request jumps with JUMP_FORCE and jumpCount 1; second jumps with 0.8·JUMP_FORCE, jumpCount 2 and no double jump left; a third is a no-op; each jump changes only the runner and the particles |
| `SimulationProofs.JumpKeepsValid` | src/components/GameCanvas.tsx:216-233 | a jump request keeps the state invariant |
| `SimulationProofs.BuffsCountDown` | src/components/GameCanvas.tsx:308-320 | each buff timer drops by exactly 1 while positive and stays at 0 otherwise; invincible iff fever or grace is still running after the decrement |
| `SimulationProofs.FeverSpeed` | src/components/GameCanvas.tsx:313-320 | the tick's speed is 1.5·gameSpeed iff fever is still positive after its decrement, else gameSpeed |
| `SimulationProofs.PhysicsLands` | src/components/GameCanvas.tsx:336-357 | after physics y + height ≤ GROUND_Y; grounded iff this tick's fall reached the ground, and then vy = 0, jumpCount = 0, not jumping, double jump available |
| `SimulationProofs.RecoveryStep` | src/components/GameCanvas.tsx:340-345 | x moves exactly 0.5 toward targetX, is unchanged when equal, and never passes its lane |
| `SimulationProofs.PhysicsKeepsValid` | src/components/GameCanvas.tsx:336-357 | the physics phase keeps the runner invariant |
| `SimulationProofs.SpawnAddsAtMostOne` | src/components/GameCanvas.tsx:367-439 | the spawner fires iff the gap rule holds and the draw is < 0.03; it then appends `NewObstacle` of the kind and lift draws (at CANVAS_WIDTH + 50) behind the others, plus a power-up of kind `PowerUpKind` of its draw (item draw > 0.95), a coin (> 0.5) or nothing; otherwise nothing changes |
| `SimulationProofs.SpawnKeepsGap` | src/components/GameCanvas.tsx:367-372 | a new obstacle lies more than 250 + 10·speed + 50 to the right of the last obstacle of the list |
| `SimulationProofs.ObstacleTable` | src/components/GameCanvas.tsx:373-398 | pole > 0.85, bird > 0.70, tricycle > 0.55, buffalo > 0.40, ditch > 0.25, else haystack, each as an iff; ground placement of each kind |
| `SimulationProofs.PowerUpTable` | src/components/GameCanvas.tsx:412-418 | fever > 0.7, magnet > 0.4, shield otherwise, each as an iff |
| `SimulationProofs.DitchIsOutOfReach` | src/components/GameCanvas.tsx:392-394 | a runner on or above the ground never collides with a ditch |
| `SimulationProofs.ObstacleContact` | src/components/GameCanvas.tsx:444-489 | in priority order: fever removes the obstacle and leaves the runner alone; a shield is spent, grace 60, vy −5, obstacle removed; otherwise, if not invincible: x − 60, vy −5, grace 40, obstacle kept; otherwise nothing; an obstacle that is kept is culled at x + width < 0 |
| `SimulationProofs.ContactTouchesRunner` | src/components/GameCanvas.tsx:455-484 | a contact changes only the runner and the particles |
| `SimulationProofs.ObstacleStepSplit` | src/components/GameCanvas.tsx:444-489 | one loop iteration puts what it keeps in front of the already processed obstacles |
| `SimulationProofs.ObstaclePassSplit` | src/components/GameCanvas.tsx:444-489 | the whole loop carries the processed obstacles through untouched |
| `SimulationProofs.Scrolled` | src/components/GameCanvas.tsx:446-453 | every obstacle moved by one tick, position by position |
| `SimulationProofs.ObstaclePassKeepsOrder` | src/components/GameCanvas.tsx:444-489 | the surviving obstacles are scrolled originals, in their original relative order |
| `SimulationProofs.LastObstacleMovesFirst` | src/components/GameCanvas.tsx:400-446 | the last obstacle (the one just spawned) is scrolled in the same tick and, if kept, stays last |
| `SimulationProofs.ObstaclePassCulls` | src/components/GameCanvas.tsx:486-488 | every obstacle left after the pass has x + width ≥ 0 |
| `SimulationProofs.FeverTramples` | src/components/GameCanvas.tsx:455-460 | under fever the pass leaves the runner unchanged and no touching obstacle survives |
| `SimulationProofs.ObstaclePassFrame` | src/components/GameCanvas.tsx:444-489 | the pass changes only the runner's x, vy, grace timer and shield, and the obstacle and particle lists; it never gives a shield and never moves the runner forward |
| `SimulationProofs.ContactKeepsValid` | src/components/GameCanvas.tsx:455-484 | one contact keeps the runner and particle invariants |
| `SimulationProofs.ObstaclePassKeepsValid` | src/components/GameCanvas.tsx:444-489 | the obstacle pass keeps the runner, obstacle and particle invariants |
| `SimulationProofs.SecondHitInSameTick` | src/components/GameCanvas.tsx:315-320 | a shielded runner that overlaps two haystacks in one pass loses the shield AND is knocked back, because `invincible` is not recomputed |
| `SimulationProofs.GraceBlocksKnockback` | src/components/GameCanvas.tsx:311-320 | with grace still running after the decrement and no fever or shield, a contact does nothing |
| `SimulationProofs.CoinPickup` | src/components/GameCanvas.tsx:510-516 | a touched coin is removed and adds 2 under fever, else 1; an untouched coin is removed at x + width < −50 with no other effect |
| `SimulationProofs.CoinMovement` | src/components/GameCanvas.tsx:495-508 | without the magnet a coin scrolls; with it, a coin within 300 of the runner's centre (squared distance < 90000) is pulled, else it scrolls |
| `SimulationProofs.CoinPassFrame` | src/components/GameCanvas.tsx:491-517 | the coin pass changes only coins, coin count and particles; the count grows by between 0 and 2 per coin |
| `SimulationProofs.PowerUpPickup` | src/components/GameCanvas.tsx:519-540 | a touched power-up is removed and sets hasShield, magnetTimer = 600 or feverTimer = 300 by type; an untouched one is removed at x + width < −50 with no other effect |
| `SimulationProofs.CollectTouchesOnlyBuffs` | src/components/GameCanvas.tsx:525-535 | a pickup changes only the shield flag and the magnet and fever timers |
| `SimulationProofs.CollectKeepsValid` | src/components/GameCanvas.tsx:525-535 | a pickup keeps the runner invariant |
| `SimulationProofs.PowerUpStepFrame` | src/components/GameCanvas.tsx:520-539 | one power-up iteration changes only the list, the particles and the runner's buffs |
| `SimulationProofs.PowerUpPassFrame` | src/components/GameCanvas.tsx:519-540 | the power-up pass changes only the list, the particles and the runner's buffs, and keeps their invariants |
| `SimulationProofs.LeadKeepsValid` | src/components/GameCanvas.tsx:285-365 | phases 1-5 keep the invariant, ramp the speed only below MAX_SPEED, grow distance by speed·0.1, compute the score from the coins before pickups, and set GAME_OVER iff the runner touches the dog |
| `SimulationProofs.MotionKeepsValid` | src/components/GameCanvas.tsx:286-357 | phases 1-4 keep the invariant and change only the runner, the dog and the counters |
| `SimulationProofs.RunnerKeepsValid` | src/components/GameCanvas.tsx:292-357 | the runner's own phases keep it valid |
| `SimulationProofs.SweepKeepsValid` | src/components/GameCanvas.tsx:441-552 | the four list passes keep the invariant and do not change state, speed, distance or score; the coin count never drops |
| `SimulationProofs.SpawnKeepsValid` | src/components/GameCanvas.tsx:367-439 | the spawner keeps the invariant and changes only the three entity lists |
| `SimulationProofs.ScrollKeepsValid` | src/components/GameCanvas.tsx:554-555 | the background offset stays in [0, CANVAS_WIDTH); an advance below one width wraps it back by exactly CANVAS_WIDTH once it reaches the edge |
| `SimulationProofs.TickKeepsValid` | src/components/GameCanvas.tsx:285-556 | a tick keeps the invariant; speed is non-decreasing, bounded and ramped only below MAX_SPEED; distance grows by speed·0.1; score = floor(distance + 50·coins before pickups); coins never drop; GAME_OVER iff dog contact; the background offset advances by speed·0.2 and wraps back by CANVAS_WIDTH at the edge |
| `SimulationProofs.FrameKeepsValid` | src/components/GameCanvas.tsx:285-556 | every frame, in any state, keeps the invariant |
| `GameCanvas.Game.constructor` | src/components/GameCanvas.tsx:83-127 | the refs start as the initial world in MENU |
| `GameCanvas.Game.ResetGame` | src/components/GameCanvas.tsx:177-213 | the new state is `Reset` of the old one |
| `GameCanvas.Game.ResetRunners` | src/components/GameCanvas.tsx:178-200 | fresh runner; dog back at DOG_X |
| `GameCanvas.Game.ResetEntities` | src/components/GameCanvas.tsx:202-205 | all four lists empty |
| `GameCanvas.Game.ResetCounters` | src/components/GameCanvas.tsx:207-212 | speed, score, distance, coins, offset and frame counter back to initial values |
| `GameCanvas.Game.StartGame` | src/App.tsx:23-26 | the new state is `Start` of the old one, and the invariant is kept |
| `GameCanvas.Game.CreateParticles` | src/components/GameCanvas.tsx:246-260 | the particle list grows by exactly the burst |
| `GameCanvas.Game.HandleJump` | src/components/GameCanvas.tsx:216-233 | the new state is `Jump` of the old one, and the invariant is kept |
| `GameCanvas.Game.Loop` | src/components/GameCanvas.tsx:285-556 | the new state is `Frame` of the old one; the invariant is kept; the stats snapshot is published only while PLAYING; `caught` holds iff the runner touched the dog |
| `GameCanvas.Game.RunnerPhases` | src/components/GameCanvas.tsx:285-365 | phases 1-5 compute `Lead`; returns the tick's speed, the stats and whether the dog caught up |
| `GameCanvas.Game.WorldPhases` | src/components/GameCanvas.tsx:441-552 | the four list passes compute `Sweep` |
| `GameCanvas.Game.AnimationTicks` | src/components/GameCanvas.tsx:286-306 | frame counter and animation counters as `Animate` |
| `GameCanvas.Game.BuffTimers` | src/components/GameCanvas.tsx:308-320 | timers as `Buffs`; returns the tick's speed |
| `GameCanvas.Game.CountDownTimers` | src/components/GameCanvas.tsx:309-311 | each timer drops by one while positive |
| `GameCanvas.Game.UpdateDistanceAndScore` | src/components/GameCanvas.tsx:322-334 | speed ramp, distance and score as `Advance`; returns the stats snapshot |
| `GameCanvas.Game.PlayerPhysics` | src/components/GameCanvas.tsx:336-357 | runner as `Physics` |
| `GameCanvas.Game.DogKill` | src/components/GameCanvas.tsx:359-365 | GAME_OVER and a burst iff the runner touches the dog |
| `GameCanvas.Game.Spawning` | src/components/GameCanvas.tsx:367-439 | lists as `Spawn` |
| `GameCanvas.Game.UpdateObstacles` | src/components/GameCanvas.tsx:443-489 | the reverse-index loop computes `ObstaclePass` |
| `GameCanvas.Game.UpdateObstacle` | src/components/GameCanvas.tsx:445-488 | one loop body computes `ObstacleStep` and leaves the unprocessed prefix alone |
| `GameCanvas.Game.ScrollObstacle` | src/components/GameCanvas.tsx:446-453 | an obstacle moved and animated as `MoveObstacle` |
| `GameCanvas.Game.HitObstacle` | src/components/GameCanvas.tsx:455-484 | runner and particles as `Contact`; `destroyed` iff fever or shield absorbed the hit |
| `GameCanvas.Game.UpdateCoins` | src/components/GameCanvas.tsx:491-517 | the reverse-index loop computes `CoinPass` |
| `GameCanvas.Game.UpdateCoin` | src/components/GameCanvas.tsx:492-516 | one loop body computes `CoinStep` |
| `GameCanvas.Game.UpdatePowerUps` | src/components/GameCanvas.tsx:519-540 | the reverse-index loop computes `PowerUpPass` |
| `GameCanvas.Game.UpdatePowerUp` | src/components/GameCanvas.tsx:521-539 | one loop body computes `PowerUpStep` |
| `GameCanvas.Game.CollectPowerUp` | src/components/GameCanvas.tsx:525-535 | runner as `Collect`, plus the pickup burst |
| `GameCanvas.Game.UpdateParticles` | src/components/GameCanvas.tsx:542-552 | the reverse-index loop computes `ParticlePass` |
| `Commentary.RandomIndex` | src/services/geminiService.ts:76-78 | floor(r·n) lies in [0, n) for 0 ≤ r < 1, so the draw never reads out of range |
| `Commentary.RandomFrom` | src/services/geminiService.ts:76-78 | the result is an element of the array |
| `Commentary.RandomFromPicks` | src/services/geminiService.ts:76-78 | draws in [i/n, (i+1)/n) pick entry i, so every entry can come up |
| `Commentary.DrawInRange` | src/services/geminiService.ts:77 | r·n lies in [0, n) |
| `Commentary.GenerateRunAnalysis` | src/services/geminiService.ts:80-95 | the title is in the chosen pool's titles and the comment in the same pool's comments |
| `Commentary.PoolSizes` | src/services/geminiService.ts:8-74 | every pool has exactly 5 titles and 5 comments |
| `Commentary.PoolsAreDisjoint` | src/services/geminiService.ts:8-74 | no two pools share a title or a comment |
| `Commentary.BracketThresholds` | src/services/geminiService.ts:86-89 | PANIC iff d < 100, CHASE iff 100 ≤ d < 500, SKILL iff 500 ≤ d < 1000, LEGEND iff d ≥ 1000 |
| `Commentary.BracketIsMonotone` | src/services/geminiService.ts:86-89 | a longer run never lands in a lower bracket |
| `Commentary.BracketExamples` | src/services/geminiService.ts:86-89 | 50 → PANIC, 100 → CHASE, 1000 → LEGEND, 1500 → LEGEND |
| `Commentary.CoinsAreIgnored` | src/services/geminiService.ts:80-94 | the result does not depend on the coin count |
| `Commentary.CommentaryRevealsBracket` | src/services/geminiService.ts:80-95 | the title (and the comment) is in bracket b's pool iff the distance falls in bracket b |

## Left out

- Drawing (src/components/GameCanvas.tsx:558-800) and image loading (:130-174): pixel output with no effect on gameplay.
- React plumbing: refs as such, `useEffect` and `useCallback`, the keyboard and touch listeners (:235-243, :803-813), and `requestAnimationFrame`. Each frame is one call of `Game.Loop`; each key press is one call of `Game.HandleJump`.
- `triggerShake`, `onGameOver` and `updateStats` are callbacks into the app. `Game.Loop` returns the stats snapshot and a `caught` flag (the frame that calls `onGameOver`) instead of calling them.
- src/App.tsx and src/components/UIOverlay.tsx are not part of this model, apart from the start transition of `startGame`. React's `setGameState` is taken to apply from the next frame on. Setting the same state again does not re-run the reset effect, so a start while PLAYING is a no-op.
- `Math.sqrt`: the magnet's pull `(dx/dist·15, dy/dist·15)` is an opaque `Host.pull`. The branch itself is decided exactly on the squared distance. The division by zero when the coin's centre is exactly the runner's centre (dist = 0, which yields NaN in JavaScript) is not modelled.
- `Math.sin`: the bobbing offset is an opaque `Host.sine`.
- `Math.random()`: every draw is a parameter. `Burst` gives the k-th particle of every burst the k-th velocity pair of one `spray` function, so two bursts in one tick share their velocities. Only the particle list and its life countdown matter for gameplay.
- Particle colours and random sizes, and the fields nothing reads (`vx` of runner and dog, `color`, `passed`, `collected`, `beingAttracted`, `maxLife`), are not carried. The constants `OBSTACLE_SPAWN_RATE_MIN`/`MAX`, `PARTICLE_COUNT` and `GEMINI_MODEL_ID` are unused by the step.
- IEEE double rounding: numbers are exact reals. So the 20-update particle lifetime is the exact-arithmetic one.
- `Commentary.GenerateRunAnalysis` is synchronous, as in the source. The `.then` that the overlay calls on its result belongs to the UI and is not part of this model.
