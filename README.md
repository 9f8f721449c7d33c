# Race logic of the top-down racing game

This project models the per-tick logic of the racing game in `secproject.py`, written with the arcade library. The modelled part is the `GameView` class. Each frame, the view:

- refreshes the race clock;
- runs the speed controller: it picks a target speed from the held keys, caps it on slow road, eases the current speed toward it and applies a minimum-speed floor;
- checks the slow-road and finish zones;
- turns the car and sets its displacement outside a speed dead-zone.

A key press sets its flag, and a press of a drive key also starts the wheel-trail effects. A key release clears its flag and starts nothing. A finished race freezes the view, except that releases still clear flags. The results screen and the timer split the race time into minutes, seconds and milliseconds.

The project has three modules:

- `RaceLogic` (`race_logic.dfy`) holds the constants, the configuration per difficulty and the whole view state as a datatype. Each handler is a pure step function on that state, and the lemmas state what the game promises: bounds, convergence, at most one finish, and a frozen view after the finish.
- `Game` (`game_view.dfy`) is the view as a class whose fields the handlers update in place. Each method's postcondition ties the new fields to the step function of `RaceLogic` applied to the old fields.
- `TimeDisplay` (`time_display.dfy`) models the time split with Python's floor division, modulo and `int()`.

Some facts come from outside the view and are therefore parameters:

- the clock readings of `time.time()`: one at the top of each frame, and a second reading in the frame that finishes the race, taken by the zone check;
- the results of the sprite-overlap queries against the slow-road and finish layers;
- whether those layers exist in the loaded map;
- the sine and cosine of the car's heading: these are uninterpreted functions `sinDeg` and `cosDeg` from degrees to reals.

Python floats are taken as exact reals.

## Model

| member | source | states |
|---|---|---|
| RaceLogic.InitialState | secproject.py:131-221 | The state after construction and setup: at rest with target speed 0, off the slow road, not finished, no key held, no wheel effects, race time 0, race clock started at the given reading, heading as spawned. |
| RaceLogic.SelectTarget | secproject.py:282-287 | The requested target speed. For a positive maximum it is positive iff forward is held, and negative iff only backward is held. Its magnitude never exceeds the maximum. |
| RaceLogic.SpeedUpdate | secproject.py:278-307 | One call of the speed controller. It changes only the target and current speeds, and the target is the capped selection. A finished state is returned unchanged. |
| RaceLogic.ZoneCheck | secproject.py:260-276 | One zone check. It changes only the slow-road flag, the finished flag and the race time. A finished state is returned unchanged, and a finished race stays finished. |
| RaceLogic.ChangeAngleFor | secproject.py:327-332 | The rotation per frame from the turn keys is always -5, 0 or 5. |
| RaceLogic.Steer | secproject.py:327-345 | The steering step changes only the rotation and the two displacement components, and the rotation is the one the turn keys give. Outside the dead-zone, each displacement component is zero exactly when the sine or cosine of the heading is. |
| RaceLogic.StartWheel | secproject.py:225-230 | Starting the wheel effects changes only the moving flag and the emitters. The old emitters stay as a prefix. Afterwards the car is moving or already has emitters. Once moving, a start changes nothing. |
| RaceLogic.KeyPressed | secproject.py:232-248 | A press on a running race sets the key's flag and keeps the other flags as they were. For a drive key, it then starts the wheel effects as StartWheel does. It changes only the key flags and, for a drive key, the wheel effects. A finished race ignores it. |
| RaceLogic.KeyReleased | secproject.py:250-258 | A release clears the released key's flag and keeps the other three flags as they were. It changes nothing but the key flags. |
| RaceLogic.Frame | secproject.py:309-345 | One frame. A finished state is returned unchanged. A frame never changes the key flags, the heading, the wheel effects or the race start time. |
| RaceLogic.DifficultiesShareSpeeds | secproject.py:178-185 | Both difficulties get a maximum speed of 8.0 and a burst of 0.21. Only the map file differs. |
| RaceLogic.TargetSelection | secproject.py:282-287 | Forward asks for the maximum speed. Otherwise backward asks for minus half of it. With neither key held, the target is 0. Forward wins over backward. |
| RaceLogic.CapOnSlowRoad | secproject.py:289-293 | The capped target never exceeds the requested one. On slow road it is at most 0.4 × the maximum. It is either the request or that cap. Off slow road, or when the request is already under the cap, it is the request. |
| RaceLogic.SlowRoadCap | secproject.py:289-293 | On slow road with forward held, the target becomes 0.4 × the maximum. Backward and no-key targets are left alone. |
| RaceLogic.SlowRoadScenario | secproject.py:178-185 | With the game's configuration, forward on slow road asks for exactly 3.2. |
| RaceLogic.Ease | secproject.py:295-304 | The speed snaps onto the target within 0.1. For non-negative dt and burst, the new speed lies between the old speed and the target (no overshoot). Otherwise the gap shrinks by the step, or is closed. |
| RaceLogic.ApplyMinSpeed | secproject.py:306-307 | With a non-zero target, the speed has magnitude at least 2. The speed is untouched when the target is 0 or the magnitude is already 2 or more. When it changes, it becomes ±2 with the sign of the target. |
| RaceLogic.TargetMagnitude | secproject.py:282-293 | With a maximum speed of 5 or more, every target is 0 or of magnitude at least 2, so the floor never pushes past the target. |
| RaceLogic.MinSpeedAfterUpdate | secproject.py:306-307 | After a speed update, a non-zero target implies a current speed of magnitude at least 2. |
| RaceLogic.SpeedApproachesTarget | secproject.py:278-307 | One speed update leaves the current speed between the old speed and the new target. |
| RaceLogic.SpeedStepCloses | secproject.py:295-307 | One update keeps the target. It shrinks the distance to it by at least the smaller of the acceleration and deceleration steps, or closes it. |
| RaceLogic.SpeedConverges | secproject.py:278-307 | After n updates with the same keys and zone, the distance to the target has shrunk by at least n steps, or is closed. |
| RaceLogic.SpeedReachesTarget | secproject.py:278-307 | Once n steps cover the initial distance, the speed equals the target. |
| RaceLogic.TargetIsFixedPoint | secproject.py:295-307 | A speed already at its target stays there. |
| RaceLogic.SpeedStaysBounded | secproject.py:278-307 | A speed within ± the maximum stays within it after an update. |
| RaceLogic.StartFromRest | secproject.py:295-307 | From rest with forward held at 60 frames per second, the first update targets 8.0. The eased step of 0.21 is lifted to the 2.0 floor. |
| RaceLogic.ZoneFlagRecomputed | secproject.py:264-267 | The zone check recomputes the slow-road flag from scratch. The flag is set iff the map has a slow-road layer and the car overlaps it. The check changes nothing else but the finish fields. |
| RaceLogic.FinishCapturesTime | secproject.py:260-276 | The race becomes finished iff it already was or the finish fires. A firing finish records the clock reading minus the start time. Otherwise the race time is unchanged. |
| RaceLogic.SteeringSign | secproject.py:327-332 | The rotation is negative iff left is held. It is positive iff only right is held. It is zero iff neither is held. |
| RaceLogic.DeadZoneStill | secproject.py:334-345 | A speed of magnitude at most 0.1 gives zero displacement. |
| RaceLogic.TrailsFor | secproject.py:228-230 | One trail per wheel offset, in order and with that offset. |
| RaceLogic.WheelStartIdempotent | secproject.py:225-230 | Starting the wheel effects twice is the same as once. Only the moving flag and the emitters change. |
| RaceLogic.WheelEffectsPersist | secproject.py:225-230 | Once the wheel effects run, no sequence of presses, releases and frames stops them or changes the emitters. Every later start finds them started and changes nothing. |
| RaceLogic.WheelFirstStart | secproject.py:225-230 | The first start sets the moving flag and creates exactly two trails, at offsets (25, -15) and (-25, -15), each keeping 20 particles. |
| RaceLogic.FrameUsesPreviousZone | secproject.py:323-325 | In a frame, the speed target uses the slow-road flag of the previous frame. The new flag is the one this frame's overlap gives. |
| RaceLogic.FrameRaceTime | secproject.py:313-325 | A frame finishes the race iff the finish fires. The race time is then taken at the zone check's clock reading. Otherwise it is taken at the frame's own reading, provided a start time is set. |
| RaceLogic.FrameDeadZone | secproject.py:327-345 | In a frame, the rotation follows the turn keys. A speed in the dead-zone gives no displacement, including in the finishing frame. |
| RaceLogic.StationaryStaysStill | secproject.py:278-345 | A car at rest with no drive key held stays at rest, with target 0 and no displacement. |
| RaceLogic.FrozenAfterFinish | secproject.py:232-311 | After the finish, no sequence of presses, releases and frames changes the race state. Releases may only clear key flags. |
| RaceLogic.FinishFiresAtMostOnce | secproject.py:269-276 | Over any sequence of events, the results screen is triggered at most once, and never if the race is already finished. |
| Game.GameView.constructor | secproject.py:131-187 | The view is created with the difficulty's configuration and the initial race state, at the reset's clock reading. |
| Game.GameView.Setup | secproject.py:218-221 | Setup resets the speed, the finished flag and the race time, and starts the race clock; nothing else changes. |
| Game.GameView.StartWheelEffects | secproject.py:225-230 | The loop appends one trail per wheel offset. The new state is the StartWheel function of the old one. |
| Game.GameView.OnKeyPress | secproject.py:232-248 | A press sets the key's flag and starts the wheel effects for drive keys. Escape returns the leave-to-menu signal. A finished view ignores presses. |
| Game.GameView.OnKeyRelease | secproject.py:250-258 | A release clears the key's flag, finished or not. |
| Game.GameView.CheckZones | secproject.py:260-276 | The zone check updates the fields as ZoneCheck does. It returns whether the results screen is shown. |
| Game.GameView.UpdateSpeed | secproject.py:278-307 | The speed controller updates the fields as SpeedUpdate does. A finished view is left alone. |
| Game.GameView.ChooseTarget | secproject.py:282-293 | The target is the selected speed, capped on slow road; nothing else changes. |
| Game.GameView.EaseTowardTarget | secproject.py:295-304 | The current speed is eased toward the target; nothing else changes. |
| Game.GameView.ApplySpeedFloor | secproject.py:306-307 | The minimum-speed floor is applied to the current speed; nothing else changes. |
| Game.GameView.OnUpdate | secproject.py:309-345 | One frame updates the fields as Frame does. It returns whether the finish fired. |
| Game.GameView.SetSteering | secproject.py:327-345 | Rotation and displacement are set as Steer does. |
| Game.FinishOnFirstFrame | secproject.py:309-325 | (Easy difficulty, starting from rest.) Press forward, then run one 60 Hz frame on the finish line. The first frame leaves the speed at 2.0, finishes the race and records 1.5 s. A second frame triggers nothing and keeps the recorded 1.5 s. |
| TimeDisplay.Trunc | secproject.py:96-98 | `int()` on a float truncates toward zero. For non-negative input it is the floor. For negative input it is minus the floor of the magnitude, so it is never positive. |
| TimeDisplay.FloorDiv | secproject.py:316-318 | Python's float `//` by a positive divisor is a whole number q with divisor × q ≤ x < divisor × q + divisor. |
| TimeDisplay.Decompose | secproject.py:316-318 | The displayed split: seconds in [0, 60), milliseconds in [0, 1000), and non-negative minutes for a non-negative time. |
| TimeDisplay.Mod | secproject.py:316-318 | Python's float modulo by a positive divisor lies in [0, divisor), and x = divisor × (x // divisor) + x % divisor. |
| TimeDisplay.DecomposeRecomposes | secproject.py:316-318 | The displayed seconds are in [0, 60) and the milliseconds in [0, 1000). A non-negative time has non-negative minutes. The displayed time is at most the real one and less than a millisecond below it. |
| TimeDisplay.DecomposeExample | secproject.py:96-99 | 83.25 seconds shows as 1 minute, 23 seconds, 250 milliseconds. |

## Left out

- The menu view, the results view's texts and keys, and `on_draw` are rendering and view switching. The model only returns the signals "leave to menu" and "show results".
- The HUD texts and the `02d`/`03d` formatting of the time string are string formatting. The numeric split they print is modelled in `TimeDisplay`.
- Music, textures and the tile-map loading are asset I/O. A map is reduced to whether it has a slow-road and a finish layer.
- Spawn position and the world size are not modelled; the spawn angle is a constructor parameter.
- `arcade.check_for_collision_with_list` is a library query; its outcomes are the boolean frame inputs.
- `physics_engine.update()` (line 361) is wall collision and motion in the library. The model therefore never changes the car's heading or position. It records only the rotation and displacement handed to the engine.
- The camera lerp (lines 363-371) affects only the view.
- `make_wheel_trail` builds random particle emitters. An emitter is modelled by its wheel offset and particle count only.
- The per-frame re-anchoring and update of the emitters (lines 347-359) is trigonometric placement of particles.
- `time.time()` readings, `math.radians`, `math.sin` and `math.cos` are parameters. The trig functions are uninterpreted.
- Floating-point rounding is not modelled; values are exact reals. For example, `PLAYER_BUST * 0.7` is exactly 0.21 here.
- `race_start_time` is None only before setup, and setup always runs in the constructor. Its truthiness test is modelled as "non-zero".
- The two branches for a positive and a non-positive speed (lines 337-342) are identical, so the model has one.
- Game.GameView.UpdateSpeed delegates its three stanzas to ChooseTarget, EaseTowardTarget and ApplySpeedFloor. The statements and their order are those of the handler.
- RaceLogic.SpeedApproachesTarget, SpeedStepCloses, SpeedConverges, SpeedReachesTarget, TargetIsFixedPoint and SpeedStaysBounded assume a maximum speed of at least 5. Below 5, the slow-road cap 0.4 × the maximum is under 2, so the minimum-speed floor overshoots it. Below 4, the backward target is under 2 in magnitude too. Both difficulties use 8.
- RaceLogic.Ease states its between-ness only for non-negative dt and burst, which is what a frame delivers.

### Behaviours of the code worth knowing

- The speed controller runs before the zone check, so a frame's speed target uses the previous frame's slow-road flag.
- The zone check runs before the physics engine moves the car, so it sees the car where the previous frame left it.
- With both turn keys held, they do not cancel: left wins.
- The minimum-speed floor lifts a speed of exactly 0 whenever the target is non-zero.
- Key releases are not blocked once the race is finished; only presses are.
