# gta3d game state, modelled in Dafny

A model of the game logic in the browser demo's `main.js`. All of that logic is one sequential
state machine kept in module-level variables:

- The key handlers keep four movement flags (`moveState`) and a firing flag (`isShooting`).
  `KeyE` on key-down enters or leaves the car.
- `toggleCar` switches between on foot and in the car. It enters only when the player is
  strictly closer than 15 units to the car. It leaves unconditionally and puts the player
  5 units along x from the car.
- The camera's scene-graph parent follows the mode. On entering it is re-parented to the car.
  On leaving it is only removed from the car and never re-attached to the player, so it ends
  with no parent. The model keeps that: the mount becomes `Unmounted`.
- `updateDayNightCycle` advances `timeOfDay` and wraps it with JavaScript's `% 1.0`. First-match
  threshold bands then pick the phase (Night, Dawn, Dusk, Day), the sun intensity and the sun colour.
- `updateMovement` ends by clamping the active entity's x and z to [-495, 495]
  (`SCENE_SIZE / 2 - 5`). An on-foot player's y is pinned to 4.
- The `mousemove` handler turns the player and clamps the camera pitch to [-π/4, π/4] when on
  foot. In the car it turns only the car.

Numbers are Dafny `real`s. The pitch limit π/4 is a positive constant given to the constructor.

Modules:

- `Geometry`: positions, the squared distance, and why the distance guard needs no square root.
- `Bounds`: the clamp, one frame of movement of the active entity, and runs of frames.
- `DayNight`: the JavaScript remainder, the time advance and the phase bands.
- `Controls`: the movement flags and how key events set and clear them.
- `Game`: the class `GameState`, whose fields are the program's module-level variables and
  whose methods are its handlers.

The class methods are specified by the pure functions of the other modules. `GameState.Valid()`
is the invariant every handler keeps:

- the camera is on the car exactly when the player is in it;
- the player is in the scene exactly when not in the car;
- the car is inside the map;
- the pitch is within the limit;
- `timeOfDay` lies in (-1, 1);
- the sun settings match the band of the current `timeOfDay`;
- the HUD phase, once set, is the band of the current `timeOfDay`;
- the background, once set, is the sun colour at half brightness.

Leaving the car only calls `car.remove(camera)` (main.js:207). The camera is never re-attached
to the player, so `GameState.ToggleCar` leaves the mount `Unmounted`, and `Game.EnterThenExit`
proves that entering and then leaving orphans the camera.

## Model

| member | source | states |
|---|---|---|
| `Geometry.WithinReach` | main.js:198-199 | for the true Euclidean distance d, the guard `d < 15` holds exactly when the squared distance is below 225 |
| `Bounds.Clamp` | main.js:276-277 | `Math.max(lo, Math.min(hi, v))` lies in [lo, hi]; it is v when v is inside, lo below, hi above |
| `Bounds.ClampIsNearest` | main.js:276-277 | an independent characterisation of the clamp at both lines: the clamped value is the point of [lo, hi] nearest to v |
| `Bounds.Confine` | main.js:274-282 | after the clamp tail the entity has x and z in [-495, 495]; on foot y = 4; in the car y is kept; coordinates already inside are unchanged |
| `Bounds.Step` | main.js:264-282 | one frame of movement ends confined; in the car y never changes; a zero displacement leaves a confined position unchanged |
| `Bounds.Drive` | main.js:285-294 | after any non-empty run of frames the active entity is confined; a run keeps the car's height |
| `DayNight.RemOne` | main.js:63 | `x % 1.0` lies in (-1, 1), has the sign of x, differs from x by a whole number, and is x when x is already in (-1, 1) |
| `DayNight.Advance` | main.js:62-63 | from t in [0, 1) and delta ≥ 0 the new time is in [0, 1) and differs from `t + delta * TIME_SPEED` by a whole number |
| `DayNight.SkyAt` | main.js:69-81 | Night iff t < 0.25 or t > 0.75 (intensity 0.1); Dawn iff 0.25 ≤ t < 0.35, Dusk iff 0.65 < t ≤ 0.75 (both 0.8, warm colour); Day iff 0.35 ≤ t ≤ 0.65 (1.5, white) |
| `Controls.WithKey` | main.js:174-193 | a key event sets or clears exactly the flag bound to that key (W forward, S backward, A left, D right); every other code changes no flag |
| `Controls.PressThenRelease` | main.js:174-193 | releasing a key after pressing it leaves the flags as releasing alone would; from idle it restores idle |
| `Controls.KeysCommute` | main.js:174-193 | events on two different keys give the same flags in either order |
| `Game.GameState.constructor` | main.js:15-171 | the state after start-up: on foot, camera on the player, player at (0, 4, 0), car at (50, 1, 50), time 0.5 with the day sun settings, no flags set |
| `Game.GameState.ToggleCar` | main.js:195-211 | on foot and strictly within 15 units: in the car, player out of the scene, camera on the car; on foot otherwise: nothing changes; in the car: on foot, player back in the scene at car + (5, 0, 0), camera unmounted, car unmoved |
| `Game.GameState.OnKeyDown` | main.js:174-183 | W/S/A/D set exactly their flag; Space sets `isShooting`; E toggles the car; every other code changes nothing |
| `Game.GameState.OnKeyUp` | main.js:185-193 | W/S/A/D clear exactly their flag; Space clears `isShooting`; every other code, E included, changes nothing |
| `Game.GameState.OnMouseMove` | main.js:228-243 | without pointer lock nothing turns; on foot the player's yaw changes, the pitch is clamped into [-π/4, π/4] whatever the movement, and the car does not turn; in the car only the car's yaw changes, twice as fast |
| `Game.GameState.UpdateDayNightCycle` | main.js:61-90 | the time is advanced and wrapped as `Advance` says; the HUD phase, sun intensity, sun colour and half-bright background are those of the new time's band |
| `Game.GameState.UpdateMovement` | main.js:263-282 | the active entity takes one `Step`; the inactive entity is not touched; the active entity ends confined |
| `Game.EnterThenExit` | main.js:195-211 | entering the car and leaving it at once puts the player back on foot beside the unmoved car, with the camera left unmounted |

## Left out

- Scene, renderer, shadow and tone-mapping set-up, and light construction: calls into the three.js library.
- Textures, meshes and materials for the ground, player and car: library objects, not logic.
- The HUD text sink: the model keeps the phase as a value (`hudPhase`), not the localised string. `hpElement` is never written by the code.
- Pointer lock, listener registration and the `requestAnimationFrame`/`clock.getDelta` loop: host I/O and frame scheduling. Frame time and pointer lock are parameters.
- The `Math.sin` intensity envelope, the ambient intensity derived from it, and the sun's orbit position: trigonometry.
- Floating point: all arithmetic is over exact reals, so the rounding of `timeOfDay += …` and of the decimal thresholds is not modelled.
- `createCity` is not part of this model. Its building placement is driven by `Math.random`. It also declares `buildingCount` as `const` and increments it, which throws a `TypeError` at the first spawned building. That aborts the rest of start-up, so in practice the player, car and controls are never set up. The constructor models the state as if start-up had completed.
- Game.GameState.UpdateMovement: the velocity damping, `direction.normalize()` and the yaw-relative `translateX`/`translateZ` are abstracted into a world-frame displacement `Shift`. The model does not tie that displacement to the held keys, the speed or the frame time.
- Game.GameState.ToggleCar: the distance is an input, not computed with `sqrt`. It is required to be the true distance (non-negative, squaring to the squared distance). The camera's local offset `(0, 10, -15)` set on entering is not tracked; it equals the offset set at start-up, and nothing else changes it.
- Game.GameState.OnMouseMove: the pitch limit is an arbitrary positive constant, not the value of π/4.
