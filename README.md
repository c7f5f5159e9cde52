# Corporate runner: a verified model of the game rules and the frame update

This project models the simulation core of a browser endless-runner game,
stated and proved in Dafny:

- the rules library (`src/utils/gameUtils.js`): the physics and difficulty
  tables, the speed curve, the obstacle spawn rate, the jump force and the
  gravity of a difficulty, the boss milestone gate, obstacle generation,
  collision detection, the boss's shooting state machine, and the death
  particles;
- the engine (`src/App.jsx`): starting a game, the pause key, and the
  per-frame update `updateGame`. Each frame moves the runner, scrolls and
  filters the obstacles, spawns at most one new one, ends the game on a
  fatal collision, scores the frame with one-time bonuses, scrolls the
  background, and runs the UFO. The UFO can drop one jump obstacle per
  flyby.

Entities are datatypes (`Runner`, `Obstacle`, `Bullet`, `Particle`, `Ufo`,
`GameState`). The source builds its results by assigning fields one by
one, pushing onto lists and looping over them. Those parts are methods that
do the same and return the new value: `MoveRunner`, `UpdateBoss`,
`CheckCollision`, `CreateParticles`, `MoveObstacles`, `SpawnObstacle`,
`CheckCollisions`, `AwardBonuses`, `UpdateUfo` and `Fly`, and `UpdateGame`
with its phases. Each is proved equal to a specification function
(`RunnerStep`, `BossStep`, `Burst`, `MoveAndFilter`, `Spawn`, `MarkAll`,
`MarkPassed`/`Bonus`, `UfoStep`, `Step`). The game's rules are then proved
about those functions.

Every random draw is an input. `Unit` is a real in [0, 1), and draws are
grouped per consumer: `GenDraws`, `SpawnDraws`, `UfoDraws`,
`ParticleDraw`, `Draws`. The other inputs of a frame are also parameters:
the ground level, the window width, the stored high score and the two held
keys (up and down). Coordinates and speeds are exact `real`s; the score is
an `int`, floored every frame as in the source.

Modules, in dependency order:

| module | holds |
|---|---|
| `Common` | `Option`, `Unit`, table indexing by a draw, the background modulo, `Max` |
| `Config` | constants, difficulty presets, speed curve, spawn rate, jump force, gravity, archetype tables |
| `Entities` | obstacles and bullets, boss count |
| `Generator` | boss gate and obstacle generation |
| `Collision` | collision check |
| `Bosses` | boss update and its shooting cadence |
| `Particles` | burst and particle decay |
| `Ufos` | UFO state machine and its drop |
| `Runners` | runner physics |
| `Field` | obstacle-list passes of a frame |
| `Engine` | game state, start, pause, the frame update |
| `Frames` | what a frame guarantees |

## Model

| member | source | states |
|---|---|---|
| Common.PickIndex | src/utils/gameUtils.js:270-271 | an index drawn as floor(draw · n) lies in the table |
| Common.Rem2000 | src/App.jsx:331 | the background offset modulo 2000: in [0, 2000) for a non-negative sum, and the sum itself below 2000 |
| Common.Max | src/App.jsx:295 | the new high score is at least both the score and the stored high score, and is one of them |
| Config.Lookup | src/utils/gameUtils.js:14-45 | the difficulty table has an entry exactly for the keys easy, normal and expert |
| Config.JumpForceFor | src/utils/gameUtils.js:53-56 | jump force is -18 times the preset's multiplier: -20.7, -18 or -16.2, with an unknown key falling back to normal |
| Config.GravityFor | src/utils/gameUtils.js:59-62 | gravity is 0.8 times the preset's multiplier: 0.72, 0.8 or 0.92, with an unknown key falling back to normal |
| Config.CalculateSpeed | src/utils/gameUtils.js:412-420 | the speed is at most maxSpeed, at least baseSpeed for a score of at least 0, and either the cap or base plus one increment per completed interval |
| Config.SpeedMonotone | src/utils/gameUtils.js:412-420 | the speed never decreases as the score grows |
| Config.SpeedBounds | src/utils/gameUtils.js:412-420 | for each preset and score at least 0 the speed lies in [baseSpeed, maxSpeed], and overall in [0.8, 3.5] |
| Config.SpawnRateBounds | src/utils/gameUtils.js:423-427 | the spawn rate is positive, below 0.06 at the preset's speeds, and grows with speed |
| Config.TablesWellFormed | src/utils/gameUtils.js:64-216 | 8 jump archetypes without a yOffset and 4 duck archetypes with one, all of positive size |
| Entities.BossCount | src/App.jsx:260 | the boss count is at most the list length, and 0 exactly when no obstacle is a boss |
| Entities.BossCountAppend | src/App.jsx:281 | the boss count of a concatenation is the sum of the counts |
| Generator.Milestone | src/utils/gameUtils.js:234-235 | the milestone is the multiple of 500 at or just below the score |
| Generator.ShouldSpawnBoss | src/utils/gameUtils.js:232-243 | a boss spawns iff the score is at least 500, its milestone is beyond the last boss's, and the draw is below 0.3 |
| Generator.OneBossPerMilestone | src/utils/gameUtils.js:232-243 | once a boss has spawned for a milestone, no later score below the next milestone spawns another |
| Generator.GenerateObstacle | src/utils/gameUtils.js:245-285 | a boss exactly when the gate opens: idle, no bullets, timer 0, 120 by 100, standing on the ground, tagged with its milestone. Otherwise a jump archetype iff the draw is below 0.7 (on the ground) or a duck archetype (at its yOffset), unpassed, with the archetype's size |
| Collision.CheckCollision | src/utils/gameUtils.js:287-332 | the verdict is the margin-8 overlap rule; the returned obstacle carries the destroyed mark; a ducking runner is never killed by a boss; touching a boss destroys it and is not fatal |
| Bosses.AdvanceBullets | src/utils/gameUtils.js:366-374 | every bullet moves by its velocity and exactly those still right of x = -50 are kept |
| Bosses.AdvanceBulletsAppend | src/utils/gameUtils.js:366-374 | map then filter splits over concatenation, so the kept bullets stay in their original order, each kept once |
| Bosses.AdvanceBulletsSnoc | src/utils/gameUtils.js:366-374 | a bullet added at the end is kept, moved, exactly when it ends right of -50 |
| Bosses.BossStep | src/utils/gameUtils.js:334-377 | a destroyed boss is unchanged. Otherwise only the shooting fields and the bullets change, every bullet is right of -50, shooting starts only with the runner 0-400 ahead and resets the timer to 180 (179 after this call's tick), and a shooting boss's timer drops by one. The invariant timer in [0, 180] and shooting iff timer > 0 is kept |
| Bosses.UpdateBoss | src/utils/gameUtils.js:334-377 | the in-place boss update computes BossStep |
| Bosses.ShotsCount | src/utils/gameUtils.js:345-364 | a phase with t frames left fires ceil(t / 20) more bullets |
| Bosses.ShotsPerPhase | src/utils/gameUtils.js:341-349 | a full 180-frame phase fires 9 bullets |
| Bosses.PhaseFiresShots | src/utils/gameUtils.js:345-364 | over any frames of a shooting phase, the number of calls that fire equals the shots the timer has left |
| Bosses.NineBulletsPerPhase | src/utils/gameUtils.js:339-364 | a phase started by the runner coming into range fires exactly 9 bullets over its 180 calls |
| Particles.Burst | src/utils/gameUtils.js:379-396 | one particle per draw, each built from its draw |
| Particles.CreateParticles | src/utils/gameUtils.js:379-396 | the push loop builds Burst of the first count draws; every particle has life 1, lies within 20 of the centre and moves upward |
| Particles.UpdateParticles | src/utils/gameUtils.js:398-409 | the output is no longer than the input and every survivor has life > 0 |
| Particles.SurvivorsDecayed | src/utils/gameUtils.js:398-409 | each survivor is a decayed input: life 0.025 lower, y velocity 0.5 higher |
| Particles.LivelySurvive | src/utils/gameUtils.js:398-409 | every input with life above 0.025 survives, decayed |
| Ufos.InactiveStep | src/App.jsx:340-359 | an inactive UFO activates only at x at most -100, cooldown at most 1 before the decrement, no boss, a clear lane and a draw below 0.001. It drops nothing, and otherwise only counts its cooldown down |
| Ufos.FlightAndExit | src/App.jsx:361-445 | an active UFO moves 1.5 right. Past 120 beyond the right edge it is reset: inactive at -200, drop state cleared, cooldown 1800 |
| Ufos.MovedDrop | src/App.jsx:412-434 | moving a jump drop vertically keeps it a jump drop, and it is an unpassed jump obstacle |
| Ufos.FallenKeepsInv | src/App.jsx:412-434 | the falling step keeps the UFO invariant and releases only jump drops |
| Ufos.DropLandsAsJump | src/App.jsx:388-434 | a released obstacle sits at the drop height. From a consistent UFO it is an unpassed jump archetype, and the UFO stays consistent |
| Ufos.BudgetSpent | src/App.jsx:365-444 | each released obstacle uses up the flyby's one-drop budget |
| Ufos.AtMostOneDropPerFlyby | src/App.jsx:365-444 | over any sequence of frames, a consistent UFO releases at most as many obstacles as its budget, which is at most one |
| Ufos.UpdateUfo | src/App.jsx:337-448 | the field-by-field UFO update computes UfoStep |
| Ufos.Fly | src/App.jsx:361-445 | the flight part of the update computes the flight phases |
| Runners.RunnerStep | src/App.jsx:209-235 | x is unchanged. A consistent runner stays consistent (never jumping and ducking at once, on the ground at its stance height, above it while jumping). A jump starts only on the up key when not ducking, with velocity jump force plus gravity. A grounded runner snaps to the duck or standing height. A falling runner lands with velocity 0 |
| Runners.AirborneIgnoresKeys | src/App.jsx:210-235 | mid-air the keys change nothing |
| Runners.MoveRunner | src/App.jsx:195-235 | the field-by-field runner update computes RunnerStep |
| Field.StepBosses | src/App.jsx:249-254 | the previous list as the in-place boss update leaves it: each boss stepped, nothing else changed |
| Field.MoveAndFilter | src/App.jsx:247-257 | no longer than the input; every kept obstacle is right of -200, not destroyed, and the boss-updated and scrolled form of an input; every such form that survives is kept |
| Field.MoveKeepsBossCount | src/App.jsx:247-257 | moving and filtering adds no boss |
| Field.MoveOne | src/App.jsx:250-256 | the map callback returns the boss-updated obstacle and its scrolled copy |
| Field.MoveAndFilterSnoc | src/App.jsx:247-257 | one more obstacle at the end adds its scrolled form iff it survives, and its boss update to the stepped list |
| Field.MoveObstacles | src/App.jsx:247-257 | the map/filter pass computes MoveAndFilter, and leaves the previous list as StepBosses |
| Field.HasBoss | src/App.jsx:260 | a boss is active iff the boss count is positive |
| Field.Spawn | src/App.jsx:262-283 | nothing spawns while a boss is active. One obstacle is appended iff there is room and the draw is below the spawn rate; it lies in [800, 900), is unpassed and is a boss iff the gate opens. A spawned boss starts idle with no bullets. The last boss score moves iff a boss spawned, and then to its milestone. Without a boss before, at most one boss after |
| Field.SpawnObstacle | src/App.jsx:262-283 | the push-based spawn computes Spawn |
| Field.MarkAll | src/App.jsx:285-292 | every obstacle is as the collision check leaves it |
| Field.CheckCollisions | src/App.jsx:285-292 | the loop reports a collision iff some obstacle is fatal, stopping at the first; without one, every touched boss is marked destroyed |
| Field.BonusBounds | src/App.jsx:313-325 | with m at least 0, the bonus is between 0 and 100·m per obstacle, and 0 when nothing was cleared |
| Field.MarkPassed | src/App.jsx:314-316 | exactly the cleared unpaid obstacles get passed set |
| Field.MarkPassedSnoc | src/App.jsx:314-325 | one more obstacle at the end is marked and pays its own bonus (100·m boss, 15·m duck, 10·m jump) iff cleared and unpaid |
| Field.PayOne | src/App.jsx:314-324 | the forEach callback marks a cleared, unpaid obstacle and adds its bonus, and leaves any other obstacle and the score alone |
| Field.AwardBonuses | src/App.jsx:310-325 | the forEach loop marks MarkPassed and adds Bonus to the score |
| Field.BonusPaidOnce | src/App.jsx:314-325 | after marking, no obstacle pays again, and marking twice is marking once |
| Field.DestroyedBossPaysNothing | src/App.jsx:313-325 | a boss destroyed by contact is not cleared in that frame and pays no bonus |
| Engine.InitialStateValid | src/App.jsx:34-67 | the initial state and UFO satisfy their invariants |
| Engine.StartGame | src/App.jsx:126-165 | an unknown key fails. A known key gives a running game at the preset's base speed: score 0, empty field, runner standing, stored high score, the chosen theme, last boss score 0 (so bosses can spawn again from 500), background at 0, no boss active, the UFO at its reset position (x -200, y 60) with no cooldown, invariants holding |
| Engine.TogglePause | src/App.jsx:175 | running becomes (not running and not over); nothing else changes |
| Engine.PauseRoundTrip | src/App.jsx:175 | pausing twice restores a game that is not over; a finished game never resumes; the invariant is kept |
| Engine.UpdateGame | src/App.jsx:190-462 | the frame update computes Step; a paused game is returned as it is |
| Engine.MoveAndResolve | src/App.jsx:247-257 | the move phase and the rest of the frame compute AfterRunner |
| Engine.SpawnAndResolve | src/App.jsx:259-283 | the boss check, the spawn and the rest of the frame compute AfterMove |
| Engine.CollideAndResolve | src/App.jsx:285-308 | the collision pass ends the game or finishes the frame, as Resolve |
| Engine.FinishFrame | src/App.jsx:310-461 | bonuses, score, particles, background, clock and UFO compute Continue |
| Frames.SameKindsSameCount | src/App.jsx:260 | lists agreeing kind by kind have equal boss counts |
| Frames.MovedSound | src/App.jsx:247-257 | move/filter keeps every boss sound (consistent timer, bullets on screen) |
| Frames.SteppedSound | src/App.jsx:249-254 | the in-place boss update keeps bosses sound and the boss count |
| Frames.SpawnSound | src/App.jsx:267-283 | a spawned boss is sound |
| Frames.MarkedSound | src/App.jsx:285-292 | the collision marks keep bosses sound and the boss count |
| Frames.PassedSound | src/App.jsx:314-316 | the bonus marks keep bosses sound and the boss count |
| Frames.LandedSound | src/App.jsx:420-427 | appending the UFO's jump drop adds no boss |
| Frames.GameOverValid | src/App.jsx:294-308 | a fatal frame keeps the state invariant |
| Frames.ContinueBasics | src/App.jsx:310-461 | a surviving frame advances the clock by one, scores at least one point, keeps the offset in [0, 2000), only decays particles, adds at most one obstacle to the checked list |
| Frames.ContinueScore | src/App.jsx:311-454 | a surviving frame's score is floor(old score + multiplier + bonuses) |
| Frames.PlainFrameScoresOne | src/App.jsx:311-454 | with no obstacle cleared, that floored score is exactly one more on every preset: expert's multiplier 1.5 is floored to 1 each frame |
| Frames.ContinueObstacles | src/App.jsx:310-453 | a surviving frame keeps bosses sound, adds no boss, keeps the UFO consistent |
| Frames.ContinueValid | src/App.jsx:310-461 | a surviving frame keeps both invariants |
| Frames.ResolveValid | src/App.jsx:285-461 | the collision outcome keeps both invariants |
| Frames.AfterMoveValid | src/App.jsx:259-461 | spawn and the rest keep both invariants |
| Frames.AfterRunnerValid | src/App.jsx:247-461 | move, spawn and the rest keep both invariants |
| Frames.FrameKeepsValid | src/App.jsx:190-462 | every frame keeps the game-state invariant (score and clock at least 0, offset in [0, 2000), never running and over, a consistent runner, at most one boss, sound bosses, live particles) and the UFO invariant |
| Frames.GameOverStops | src/App.jsx:294-308 | a fatal frame stops the game and marks it over. It records and persists max(score, stored), appends 15 fresh particles, keeps the UFO and everything else (score, runner, clock), and keeps obstacles where they were |
| Frames.ContinueSurvives | src/App.jsx:310-461 | a surviving frame satisfies Survived with the new runner and speed |
| Frames.ResolveOutcome | src/App.jsx:285-461 | a high score is persisted iff some obstacle is fatal; the fatal frame stops, the other survives |
| Frames.AfterMoveOutcome | src/App.jsx:259-461 | after the spawn, a frame stops or survives as above, adding at most two obstacles |
| Frames.AfterRunnerOutcome | src/App.jsx:247-461 | after the move, a frame stops or survives as above |
| Frames.FrameOutcome | src/App.jsx:190-462 | a paused frame changes nothing. A running frame either stops (and only then persists) or survives: runner by RunnerStep at the difficulty's jump force and gravity, speed from the speed curve at the previous score, clock plus one, at least one point, at most two new obstacles, last boss score unchanged or raised to the score's milestone |

## Left out

- Rendering, animation and event wiring are not modelled: the components, keyboard and touch listeners, the swipe timer, the animation-frame loop, the resize handler and scroll prevention. Input is the two held keys.
- `localStorage` and `parseInt` are not modelled: the stored high score is an integer parameter, and the written value is the frame's `persisted` output.
- `window.innerHeight`/`innerWidth` and `getGroundLevel` are parameters (`groundLevel`, `windowWidth`).
- `Math.random` is replaced by explicit draws; random ids, particle colours and display fields (`config`, `title`, `falling`, `type` names beyond the archetype name) carry no game logic.
- IEEE floating point: all arithmetic is on exact reals, so rounding in the score, speed and offsets is not modelled.
- `lastSpeedIncreaseRef` bookkeeping is not modelled: nothing in the core reads it.
- React's state queue is not modelled. The UFO updater and its nested obstacle append run after the frame's state update; here the UFO step runs on the frame's final obstacle list and its landed obstacle is appended to the same frame's result. The double calls of updaters in development mode are also out.
- Looking up a difficulty key that names an object prototype property (such as `toString`) is not modelled: only the three preset keys are found.
- Field.MoveObstacles: the source's separate map and filter are one loop that filters as it maps; the result is the same list.
- Engine.UpdateGame: the single source function is split into one method per phase (`MoveAndResolve`, `SpawnAndResolve`, `CollideAndResolve`, `FinishFrame`). Together they compute the same frame.
- Ufos.InactiveStep: the clause "otherwise it only counts down" assumes a non-negative window width. With a width below -218.5, a UFO activated this frame would leave the screen at once.
- Engine.GameOver: the previous obstacles the fatal frame keeps are the objects the in-place boss update already changed (as the source's map callback mutates them). The model returns them as StepBosses of the previous list.
