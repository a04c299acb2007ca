# Asteroid links: a verified model of the game simulation

The game is a small canvas asteroid shooter. The player steers a ship with
the keyboard or four on-screen touch buttons and fires bullets at drifting
"social" targets. A bullet that hits a target opens the target's link,
throws a burst of white sparks, and disappears. The target stays.

This project models the simulation behind the pictures:

- the engine's running flag and frame loop;
- the fixed order of one frame (`update`);
- the collision pass (`checkCollisions`);
- the controls that turn key and touch events into three intents;
- the ship, bullet and target kinematics;
- the particle pool.

Every game object whose fields the source updates is a Dafny `class` holding
the fields the simulation reads and writes. Its methods carry `modifies`
clauses. `Vector2D` is the exception: the model treats vectors as values (see
"## Left out"). The classes differ from the source classes as follows:

- The controls' private `_isThrusting` flag is named `thrustButton`.
- The controls' `LEFT_ARROW_POS`, `RIGHT_ARROW_POS`, `THRUST_POS` and
  `SHOOT_POS` are named `leftArrowPos`, `rightArrowPos`, `thrustPos` and
  `shootPos`.
- The button size and margin are module constants, not fields.
- A social target's `type` field is named `kind`, since `type` is a Dafny
  keyword.
- Fields the source assigns only in a constructor are `const`: the radii, a
  target's kind and url, a particle's colour and size, and the engine's
  controls, player and particle pool.
- The controls keep no back reference to the player, and the engine holds no
  canvas or drawing context, since drawing is not modelled.
- The engine has two ghost fields the source does not have: `visited` (the
  links opened) and `scheduled` (the frames requested).

The classes are specified in three forms:

- `Player`, `Bullet`, `SocialTarget` and `Particle` each have a `State()`
  function that reads the fields as a value. Each `Update` is proved equal to
  a pure step function on that value (`PlayerStep`, `BulletStep`,
  `TargetStep`, `ParticleStep`).
- `ParticleSystem.States()` reads the pool as a sequence of values, and
  `ParticleSystem.Update` is proved equal to `SystemStep`. `GameEngine`
  reads its whole world as a `World` value with `Snapshot()`. `Update` and
  the frame branch of `GameLoop` are proved equal to `Frame`, and the
  helper methods to the parts of `Frame`. `Start`, `Stop` and `SetClock`
  only set the running flag, the clock and the frame counter, and their
  contracts name those fields directly.
- `Controls` has no value view. Its event handlers are specified field by
  field. After `touchstart` each button flag is its old value or `Pressed`
  over the new touches. After `touchmove` and `touchend` each flag equals
  `Pressed` over the current touches. Each key handler changes exactly one
  entry of the key map.

The game's promises are then proved as lemmas about the step functions.

At the top, `GameEngine.Update` is proved to turn the engine's objects into
`Frame(old(Snapshot()), …)`. `Frame` is the whole frame as a function on a
`World` value: the ship, the bullets, the targets, the particles and the
links opened so far. The frame and multi-frame lemmas (`FrameEffects`,
`FrameHits`, `ShotsSpaced`, `PlayLastShot`) therefore describe what the
engine objects do.

Modules, one per source file plus two shared ones:

| module | file | models |
|---|---|---|
| `Vectors` | vectors.dfy | `Vector2D` add and multiply; the random and heading inputs |
| `Seqs` | seqs.dfy | `Array.prototype.filter` on values, sums of time steps, duplicate-free object lists |
| `Entities` | entities.dfy | client/src/game/entities.ts |
| `Particles` | particles.dfy | client/src/game/particles.ts |
| `Input` | input.dfy | client/src/game/controls.ts |
| `Simulation` | simulation.dfy | client/src/game/engine.ts |

Inputs the simulation cannot compute itself are parameters:

- The window size `w`, `h` is passed to every call that reads `window.innerWidth` or `window.innerHeight`.
- `Math.random()` is a stream `rand: nat -> Draw` with values in [0, 1). Each operation that draws takes its own stream: the engine constructor and each `GameLoop` call. Its k-th draw is `rand(k)`.
  - The i-th target uses draws 5i to 5i+4.
  - The i-th particle of a burst uses draws 3i (angle), 3i+1 (speed) and 3i+2 (size).
  - The m-th burst of a frame starts 60 draws after the previous one.
- `(Math.cos(a), Math.sin(a))` is a function `dir: real -> Vec`.
- The frame timestamp is the `time` parameter of `GameLoop`.
- The configured links are the `links` parameter of the engine constructor.

Four behaviours of the code are easy to misread. The model states each one as
written:

- Fire cooldown: the ship fires only when strictly more than 250 ms have passed since its last shot (engine.ts:80). Exactly 250 ms is not enough. See `Fires`.
- Wrap interval: a coordinate below 0 becomes exactly `W`, so positions stay in the closed interval `[0, W]`, not the half-open `[0, W)` (entities.ts:42-45). See `Wrap`.
- Frame step: `dt` is the raw difference of timestamps divided by 1000, with no clamping (engine.ts:61). A long pause gives one large step. See `Elapsed`.
- Fire rate: no lower bound on the number of shots under continuous fire holds, because it depends on the frame times. `ShotBudget` proves only the upper bound: n shots take more than 250·n ms.

## Model

| member | source | states |
|---|---|---|
| Entities.Wrap | client/src/game/entities.ts:42-45 | For a non-negative bound the result lies in the closed interval [0, bound]. Below 0 the coordinate becomes exactly the bound, beyond the bound it becomes exactly 0, and inside it is unchanged. |
| Entities.PlayerStep | client/src/game/entities.ts:31-46 | The new velocity is 0.99 × (v + heading·200·dt) with thrust and 0.99 × v without. The wrapped position lies in [0, w] × [0, h] for a non-negative field. Rotation, thrust, shooting and lastShot are unchanged, and wrapping never alters the velocity. |
| Entities.Player.constructor | client/src/game/entities.ts:21-29 | A new ship sits at the field centre at rest, with rotation 0, no thrust, lastShot 0 and radius 15. |
| Entities.Player.Update | client/src/game/entities.ts:31-46 | The in-place update, with its conditional wrap assignments, leaves exactly `PlayerStep` of the old state. |
| Entities.TerminalSpeed | client/src/game/entities.ts:32-38 | With thrust held, a speed along the heading that starts between 0 and 99·200·dt never decreases and never exceeds that bound, however many frames pass. The damping caps the ship's speed. |
| Entities.HeldThrustAlong | client/src/game/entities.ts:32-38 | Holding thrust along a fixed heading keeps the velocity on that heading. Its magnitude follows `HeldSpeed`. |
| Entities.HeldPlayer | client/src/game/entities.ts:31-46 | Over n frames with thrust held and the rotation fixed, the ship's velocity is `HeldThrust` along its heading, whatever the wrap does to its position. Rotation, thrust and lastShot are kept. After at least one frame, the ship lies in a non-negative field. |
| Entities.ShipSpeedCap | client/src/game/entities.ts:32-38 | A ship that starts at rest and holds thrust moves along its heading at `HeldSpeed`, which stays between 0 and 99·200·dt. |
| Entities.Bullet.constructor | client/src/game/entities.ts:82-91 | A new bullet has velocity 500 × heading, lifetime 1.5 and radius 4, at the given position and rotation. |
| Entities.NewBullet | client/src/game/entities.ts:82-91 | A new bullet is alive. It starts at the given position and rotation, moving at 500 along the heading. |
| Entities.BulletStep | client/src/game/entities.ts:93-96 | One update keeps velocity and rotation and takes exactly dt off the lifetime. For dt ≥ 0, a bullet alive afterwards was alive before. |
| Entities.BulletExpiry | client/src/game/entities.ts:82-96 | A new bullet stays alive exactly while less than 1.5 s of frames has elapsed, however that time is split into frames. |
| Entities.Bullet.Update | client/src/game/entities.ts:93-96 | The update moves the bullet by velocity × dt and lowers its lifetime by exactly dt. It has no wrap. |
| Entities.FlightAfter | client/src/game/entities.ts:93-96 | After any series of updates, the lifetime has dropped by exactly the sum of the steps. The position has moved by the unchanged velocity times that sum. |
| Entities.SpawnTarget | client/src/game/entities.ts:114-127 | A new target lies in the field. Its drift is at most 50 per axis and its angle is in [0, 2π). It keeps its kind and url. |
| Entities.SocialTarget.constructor | client/src/game/entities.ts:114-127 | The constructor builds exactly `SpawnTarget` of its five draws, with radius 25. |
| Entities.TargetStep | client/src/game/entities.ts:129-137 | The rotation increases by exactly 0.5·dt. The wrapped position lies in the field. Velocity, kind and url are unchanged. |
| Entities.SocialTarget.Update | client/src/game/entities.ts:129-137 | The in-place update leaves exactly `TargetStep` of the old state. |
| Entities.Icon | client/src/game/entities.ts:161-170 | Each of the five kinds maps to its fixed glyph. The result is "?" if and only if the kind is none of them. |
| Entities.BulletStatesSplice | client/src/game/engine.ts:117 | `splice(i, 1)` on the bullet objects removes exactly the i-th state and keeps the others in order. |
| Entities.LiveBulletStates | client/src/game/engine.ts:90 | Filtering the bullet objects on `lifetime > 0` filters their states the same way. |
| Entities.LiveBullets | client/src/game/engine.ts:90 | The filter keeps exactly the listed bullets whose lifetime is positive, and never lengthens the list. |
| Entities.LiveBulletsDistinct | client/src/game/engine.ts:90 | The filter never lists a bullet object twice. |
| Particles.DecayAfter | client/src/game/particles.ts:18-21 | Over any series of updates, life falls by exactly 2 × the elapsed time. The particle moves by its unchanged velocity times that time, and colour and size are unchanged. |
| Particles.ParticleStep | client/src/game/particles.ts:18-21 | One update keeps velocity, colour and size and takes exactly 2·dt off the life. For dt ≥ 0, a particle live afterwards was live before. |
| Particles.Extinction | client/src/game/particles.ts:13-20 | A fresh particle is used up exactly when at least half a second has elapsed, however the time is split into frames. |
| Particles.SystemStep | client/src/game/particles.ts:34-37 | The pool never grows in an update. |
| Seqs.FilterMembers | client/src/game/particles.ts:35 | `filter` keeps exactly the elements that satisfy its predicate. |
| Seqs.FilterAppend | client/src/game/particles.ts:35 | `filter` keeps relative order: it distributes over concatenation. |
| Seqs.FilterCount | client/src/game/engine.ts:90 | `filter` keeps every occurrence of a kept value and drops every occurrence of a rejected one. |
| Particles.SystemStepAppend | client/src/game/particles.ts:34-37 | The pool update keeps the pool's order: it distributes over concatenation. |
| Particles.Lingers | client/src/game/particles.ts:35-36 | Every particle live on entry is updated and kept, even when this update uses up its life. It is dropped only by the next update's filter. |
| Particles.OnlyLiveSurvive | client/src/game/particles.ts:35-36 | Every particle after an update is a particle that was live on entry, stepped once. |
| Particles.EmitSpeed | client/src/game/particles.ts:46 | The emission speed lies in [50, 150). |
| Particles.EmitSize | client/src/game/particles.ts:15 | A particle's size lies in [1, 4). |
| Particles.EmitAngle | client/src/game/particles.ts:45 | The emission angle lies in [0, 2π). |
| Particles.Burst | client/src/game/particles.ts:43-53 | An emission makes exactly `count` particles, or none for a negative count. The i-th uses draws 3i to 3i+2. Each sits at the given position with life 1.0, the given colour and a size in [1, 4). |
| Particles.Particle.constructor | client/src/game/particles.ts:10-16 | A new particle has life 1.0, the given position, velocity and colour, and a size drawn in [1, 4). |
| Particles.Particle.Update | client/src/game/particles.ts:18-21 | The update moves the particle by velocity × dt and lowers its life by exactly 2·dt. |
| Particles.LiveParticleStates | client/src/game/particles.ts:35 | Filtering the particle objects on `life > 0` filters their states the same way. |
| Particles.LiveParticles | client/src/game/particles.ts:35 | The filter keeps exactly the listed particles whose life is positive, and never lengthens the list. |
| Particles.LiveParticlesDistinct | client/src/game/particles.ts:35 | The filter never lists a particle object twice. |
| Particles.StatesOfSnoc | client/src/game/particles.ts:51 | Pushing a particle object appends its state. |
| Particles.ParticleSystem.constructor | client/src/game/particles.ts:32 | A new pool is empty. |
| Particles.ParticleSystem.Update | client/src/game/particles.ts:34-37 | The pool's states become `SystemStep` of the old states: the particles with life ≤ 0 on entry are dropped, order is kept, then every survivor takes one step. No new object appears. |
| Particles.ParticleSystem.StepEach | client/src/game/particles.ts:36 | Each particle of a duplicate-free list takes exactly one step, in place. |
| Particles.ParticleSystem.Emit | client/src/game/particles.ts:43-53 | The pool's states become the old states followed by `Burst`. Existing particles are unchanged and stay in order, and the pool stays duplicate-free. |
| Input.ButtonLayout | client/src/game/controls.ts:29-40 | Every button centre has y = h − 50. Left is at x = 50, right at 125, thrust at w − 125 and shoot at w − 50. |
| Input.Within | client/src/game/controls.ts:58-62 | A touch at a button's centre presses it. A touch that presses a button is within 30 of its centre along each axis. |
| Input.OneTouchOneButton | client/src/game/controls.ts:34-62 | One touch never presses both arrows, nor both thrust and fire: same-row centres are 75 apart, and a press is within 30 of the centre. |
| Input.PressedSnoc | client/src/game/controls.ts:80-82 | One more touch presses a button exactly when it or an earlier touch does. |
| Input.Controls.constructor | client/src/game/controls.ts:3-27 | New controls have no key seen, all four flags clear and the buttons laid out by `ButtonLayout`. |
| Input.Controls.UpdateButtonPositions | client/src/game/controls.ts:29-40 | The four button centres become `ButtonLayout(w, h)`. |
| Input.Controls.Rotation | client/src/game/controls.ts:112-116 | The rate is one of −5, 0 and 5. It is −5 if and only if a left input is active, 5 if and only if a right input and no left input is active, and 0 if and only if neither is. Left wins. |
| Input.Controls.Thrusting | client/src/game/controls.ts:118-120 | Thrust is on when the thrust button is pressed or the up arrow or `w` is down. Otherwise it is off, and a key never seen counts as up. |
| Input.Controls.TriggerPressed | client/src/game/controls.ts:122-124 | The trigger is down exactly when the space bar is down or the fire button is pressed. A key never seen counts as up. |
| Input.Controls.KeyDown | client/src/game/controls.ts:47-49 | `keys[k]` becomes true and no other key's state changes. Space pulls the trigger, ArrowUp or w thrusts, and ArrowLeft or a turns left. |
| Input.Controls.KeyUp | client/src/game/controls.ts:51-53 | `keys[k]` becomes false and no other key's state changes. After releasing space, the trigger follows the fire button alone. |
| Input.Controls.CheckButtonPress | client/src/game/controls.ts:57-77 | Each flag becomes its old value or whether the touch lies strictly within 30 of that button's centre. No flag is cleared. |
| Input.Controls.CheckTouches | client/src/game/controls.ts:80-82 | Each flag becomes its old value or whether some touch of the list presses that button. |
| Input.Controls.TouchStart | client/src/game/controls.ts:79-83 | touchstart only sets flags: each becomes its old value or "some touch presses it". |
| Input.Controls.ResetAndCheck | client/src/game/controls.ts:86-95 | Each flag becomes exactly whether some current touch presses that button. |
| Input.Controls.TouchMove | client/src/game/controls.ts:85-96 | After touchmove, each flag is true if and only if some current touch presses that button. |
| Input.Controls.TouchEnd | client/src/game/controls.ts:98-109 | After touchend, each flag is true if and only if some remaining touch presses that button. |
| Simulation.Overlaps | client/src/game/engine.ts:109-113 | A bullet at a target's centre hits it. A hit lies within 29 (target radius 25 plus bullet radius 4) of the centre along each axis. |
| Simulation.LastOverlap | client/src/game/engine.ts:107-119 | The inner scan finds the highest-index target within reach, with no overlap above it, or -1 if and only if no target overlaps. |
| Simulation.Collide | client/src/game/engine.ts:103-122 | The survivors and the hits together account for every bullet once, and every hit is one of the targets. |
| Simulation.CollideSurvivors | client/src/game/engine.ts:103-122 | The pass keeps exactly the bullets that overlap no target, in their original order. |
| Simulation.SurvivesIffMisses | client/src/game/engine.ts:113-117 | A bullet survives the pass if and only if no target overlaps it. |
| Simulation.HitsOverlap | client/src/game/engine.ts:113-118 | Every hit is a target that some bullet overlaps. |
| Simulation.Bursts | client/src/game/engine.ts:115 | The pass emits exactly 20 sparks per hit. The m-th burst is centred on the m-th hit and uses the draws after the 60 of each earlier burst. |
| Simulation.BurstsAtHits | client/src/game/engine.ts:115 | Every spark of the pass is white, has full life and a size in [1, 4), and sits at the position of one of the hit targets. |
| Simulation.Trigger | client/src/game/engine.ts:79-87 | When the trigger is down and strictly more than 250 ms have passed since the last shot, exactly one bullet is appended and lastShot becomes the current time. The bullet starts 20 ahead along the heading with the ship's rotation. Otherwise ship and bullets are unchanged. |
| Simulation.Refresh | client/src/game/engine.ts:89-91 | The bullet step never adds a bullet. |
| Simulation.FreshShotMoves | client/src/game/engine.ts:85-91 | A bullet fired this frame survives the lifetime filter and moves once, behind the bullets already in flight. |
| Simulation.BulletLingers | client/src/game/engine.ts:89-99 | The filter runs before the step, so a bullet alive on entry is moved and stays in the list this frame's collision pass scans, even when this step uses up its lifetime. The next frame's filter drops such a bullet. |
| Simulation.BulletsOnlyLiveSurvive | client/src/game/engine.ts:90-91 | Every bullet after the step is a bullet alive on entry, moved once. |
| Simulation.Frame | client/src/game/engine.ts:71-101 | One frame turns the ship by exactly rate × dt and sets its thrust from the controls. lastShot moves to the frame time only when the cooldown allows a shot. The targets become exactly `TargetsStep` of the old ones, and the visited links only grow at the end. |
| Simulation.Collisions | client/src/game/engine.ts:103-122 | The collision half of a frame leaves the ship and the targets alone. Every bullet it removes opens exactly one link, so kept bullets plus new links equal the bullets scanned. It keeps the earlier links and particles as prefixes, and appends exactly 20 sparks per link it opens. |
| Simulation.FrameEffects | client/src/game/engine.ts:71-101 | In one frame the ship stays in the field. The bullet count grows by at most the one shot the cooldown allows. Targets keep their number, kinds and urls. Exactly 20 sparks follow the surviving particles per link opened. |
| Simulation.FrameHits | client/src/game/engine.ts:88-121 | Every bullet the pass removes opens exactly one link, and that link is one of the targets' urls. |
| Simulation.ShotsSpaced | client/src/game/engine.ts:79-86 | Over any series of frames, every shot comes strictly more than 250 ms after the previous one. |
| Simulation.ShotBudget | client/src/game/engine.ts:79-86 | n shots take more than 250·n ms after the last earlier shot. |
| Simulation.PlayLastShot | client/src/game/engine.ts:71-101 | Over any series of frames, the ship's lastShot is the latest shot time. So the cooldown lemmas describe the frames the engine runs. |
| Simulation.PlaySnoc | client/src/game/engine.ts:58-69 | Playing one more frame is applying one more `Frame` to the result of the earlier ones. |
| Simulation.InitialTargets | client/src/game/engine.ts:43-47 | The engine starts with one target per link, in order, the i-th made from the i-th link and draws 5i to 5i+4. |
| Simulation.InitialTargetsInField | client/src/game/engine.ts:43-47 | Each starting target carries its link's kind and url and lies inside the field. |
| Simulation.InitialTargetsSnoc | client/src/game/engine.ts:44-46 | Pushing the target of the next link extends the starting targets by that link. |
| Simulation.CollideAt | client/src/game/engine.ts:104-121 | One turn of the outer loop handles the bullet at index i in front of the pass over the later bullets. |
| Simulation.BurstsSnoc | client/src/game/engine.ts:115 | One more hit appends one more burst, after the earlier ones. |
| Simulation.StepHit | client/src/game/engine.ts:113-118 | A hit bullet is spliced out, and the pass so far covers one more bullet. |
| Simulation.HitEffects | client/src/game/engine.ts:115-116 | A hit's burst and url follow those of the earlier hits. |
| Simulation.StepMiss | client/src/game/engine.ts:107-120 | A bullet that hits nothing stays, in front of the later survivors. |
| Simulation.Elapsed | client/src/game/engine.ts:61 | The step in seconds is the timestamp difference over 1000, and it is non-negative for non-decreasing timestamps. |
| Simulation.GameEngine.constructor | client/src/game/engine.ts:19-36 | A new engine is stopped, with clock 0, and newly allocated controls, ship, particle pool and targets. The ship is at the centre, and there are no bullets and no sparks. It holds one target per link, as `InitialTargets` says. |
| Simulation.GameEngine.InitializeSocialTargets | client/src/game/engine.ts:43-47 | The loop makes one new target per link whose states are `InitialTargets`. Every target is newly allocated, and no target object appears twice. |
| Simulation.GameEngine.Spawn | client/src/game/engine.ts:45 | The target for the i-th link is a new object in the state `Spawned`. |
| Simulation.GameEngine.Start | client/src/game/engine.ts:49-52 | `start` sets running and requests one frame. |
| Simulation.GameEngine.Stop | client/src/game/engine.ts:54-56 | `stop` clears running. Stopping twice is stopping once. |
| Simulation.GameEngine.GameLoop | client/src/game/engine.ts:58-69 | A stopped engine changes nothing and requests no frame. A running one records the time, requests the next frame and leaves exactly `Frame` of the old world. Its step is the elapsed seconds and its inputs are the controls' intent at entry. The target list is the same list, and every bullet and spark afterwards was there before or is newly made. |
| Simulation.GameEngine.Tick | client/src/game/engine.ts:61-68 | The running branch of `gameLoop`: clock stored, next frame requested, `Frame` applied. Targets are kept, and bullets and sparks are old or newly made. |
| Simulation.GameEngine.SetClock | client/src/game/engine.ts:62-68 | The clock fields take the frame time and one more frame is requested. The world and the intent are untouched. |
| Simulation.GameEngine.Update | client/src/game/engine.ts:71-101 | The objects end in exactly `Frame` of the old world, and the clock and the running flag are untouched. Every bullet and spark afterwards was there before or is newly made. |
| Simulation.GameEngine.Maneuver | client/src/game/engine.ts:72-87 | Steering then the fire step: the world becomes `Shoot(Steer(…))`, and at most one new bullet object is appended. |
| Simulation.GameEngine.Advance | client/src/game/engine.ts:89-100 | Bullets, targets and particles move, then the collision pass runs, in that order. |
| Simulation.GameEngine.SteerShip | client/src/game/engine.ts:72-76 | The rotation grows by the controls' rate × dt and thrust follows the controls, then `player.update` runs. Nothing else changes. |
| Simulation.GameEngine.HandleShooting | client/src/game/engine.ts:78-87 | The fire step on the objects is exactly `Shoot` with the trigger and the clock at entry, and it appends at most one new bullet object. |
| Simulation.GameEngine.UpdateBullets | client/src/game/engine.ts:89-91 | Spent bullets are dropped, then the rest move. The world becomes `MoveBullets` of the old one and no new bullet object appears. |
| Simulation.GameEngine.MoveEach | client/src/game/engine.ts:91 | Each bullet of a duplicate-free list takes exactly one step, in place. |
| Simulation.GameEngine.UpdateTargets | client/src/game/engine.ts:93-94 | Every target takes exactly one `TargetStep`, in place. |
| Simulation.GameEngine.UpdateParticles | client/src/game/engine.ts:96-97 | The particle pool takes exactly one `SystemStep`. |
| Simulation.GameEngine.ScanTargets | client/src/game/engine.ts:107-120 | The backward scan with `break` returns exactly `LastOverlap` of the bullet against the targets. |
| Simulation.GameEngine.Strike | client/src/game/engine.ts:113-118 | A hit emits 20 white sparks at the target, opens its url and splices out bullet i. Targets are untouched. |
| Simulation.GameEngine.Visit | client/src/game/engine.ts:104-121 | One turn of the outer loop keeps the collision pass's invariant, one bullet further down. |
| Simulation.GameEngine.CheckCollisions | client/src/game/engine.ts:103-122 | The objects end in exactly `Collisions` of the old world: survivors in order, one burst and one opened url per hit, targets unchanged. |

## Left out

- Drawing is not modelled: every `draw` method, `drawMobileControls`, `drawInstructions` and `drawJoystick` only produce canvas output.
- `setupCanvas`, the resize listeners and `addEventListener` registration are not modelled. The window size is a parameter, and each event handler body is a method.
- `Controls.setPlayer` is not modelled: the simulation never reads the player it stores.
- client/src/main.tsx is not part of this model: it only mounts the canvas.
- `Math.random`, `Math.cos` and `Math.sin` are inputs: the `rand` stream and the `dir` heading function. The model states which draw feeds which value, not their distribution.
- The model does not link the draws of one operation to the next. In the source, `Math.random` is one global sequence that never repeats a call. In the model, the constructor and each frame start their own stream at index 0. A caller may pass the same stream twice and get the same draws again. No contract depends on draw values beyond their range [0, 1), so every promise holds for any streams.
- `Math.sqrt` is not modelled. Distances are compared squared against squared radii, which gives the same test because both sides are non-negative.
- IEEE double rounding is not modelled: positions, velocities and times are exact `real`s. `Math.PI` is the double's decimal value.
- `window.open` becomes the ghost sequence `visited`, to which each hit appends its url.
- `requestAnimationFrame` becomes the ghost counter `scheduled`. The callback's later arrival is the next `GameLoop` call.
- Simulation.GameEngine.Tick: `gameLoop` requests the next frame after `update` and `draw`. The model bumps `scheduled` together with the clock, before the update. Nothing in the model reads it in between.
- Simulation.GameEngine.InitializeSocialTargets: the model returns the new targets and the constructor stores them. The source pushes onto `this.targets`, which is empty at that point.
- `./assets` is not part of this model: `SOCIAL_LINKS` is the `links` constructor parameter.
- `./vectors` is not part of this model: `Vector2D` add and multiply are defined componentwise on values. `Player.update` changes its position vector in place, one coordinate at a time (entities.ts:42-45). The model assigns a whole new `Vec` after each wrap step, which gives the same final position. Vectors are values, so the aliasing of one `Vector2D` between a target and the particles emitted at it is not modelled; the source never mutates a shared vector.
- Input.Controls.Held: a key never seen reads as not held. The source's `undefined` is falsy in every place it is read.
- Simulation.GameEngine.Visit, Strike, Maneuver and Advance are helper methods. They split one source method so that each proof stays small. Their ghost parameters carry the values the proof needs.
- Simulation.GameEngine.Tick and Simulation.GameEngine.Update take ghost parameters (`w0`, `intent`, `now`) that the source does not have. They carry the world, intent and time at entry, so that each proof stays small. Callers pass the current values, as `GameLoop` does.
