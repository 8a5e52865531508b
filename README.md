# Linear actuator, motor driver and indicator LED — a Dafny model

This project models the control core of a small embedded setup. A 12 V linear
actuator is driven through a relay, which selects the polarity, and a MOSFET,
which switches the power. The actuator has no position sensor. Its position
in mm is estimated from the commanded run time and the nominal speed, then
clamped to the stroke. The project also models a two-pin H-bridge motor
driver and an active-low indicator LED.

Modules, one per source file:

- `Types`: the direction of travel, the LED state, the errors the source
  raises through failed assertions or thrown errors, and the `Outcome` and
  `Result` wrappers that carry them.
- `Utils`: the clamp `InBounds` (`src/utils.ts`).
- `Gpio`: an abstract output pin with a level, a released flag and a ghost
  log of every level written to it. It stands for `GPIO_Component`.
- `Motor`: the class `MotorDriver` (`src/modules/MotorDriver.ts`).
- `Indicator`: the class `Led` (`src/modules/LED.ts`).
- `Actuator`: the arithmetic of the controller and the class `LinearActuator`
  (`src/modules/LinearActuator.ts`). The arithmetic covers the distance and
  duration bounds, the ceiling conversion and the clamped position update.

Each class has fields that its methods update in place. Every method's
`ensures` gives the whole new state in terms of the old one. That includes
the exact sequence of pin writes. Each pin's `writes` log records its own
writes, and the actuator's ghost `trace` records the writes to the relay and
the MOSFET in order. The values passed to the change callback are recorded in
a ghost `notified` log.
The properties of the controller's arithmetic are proved as lemmas about the
pure functions `ToDurationMs`, `MaxDuration` and `Moved`. The methods use
these lemmas.

Numbers are `real`. The safety factor 1.1 is the exact rational 11/10, and
`Math.ceil` is `Ceil`, defined from `.Floor`.

## Behaviour of the code worth knowing

- The position update multiplies the duration in milliseconds by the speed
  in mm/s, with no division by 1000 (`LinearActuator.ts:58`). Every non-empty
  move therefore travels at least 1000 times its intended distance before
  the clamp. `setPositionAsync(p)` does not in general land on `p`. It
  reaches or passes `p` in the direction of travel
  (`SetPositionNeverFallsShort`). With a 150 mm stroke at 5 mm/s,
  `setPositionAsync(100)` from 0 ends at 150 (`SetPositionOvershootExample`).
  The end-stop operations still land where they should, because the clamp
  catches the overshoot.
- `calibrate` does not force the position to 0. It retracts by the whole
  distance bound, and the clamp brings the estimate to 0 whenever it started
  at or below 1000 × the distance bound (`Actuator.LinearActuator.Calibrate`).
- `LinearActuator` has no `isMoving` flag and no re-entrancy guard. Only
  `MotorDriver` has one.
- The initial position is not validated, so an out-of-stroke estimate is
  possible until the first completed move. From such an estimate,
  `fullyExtend` and `fullyRetract` always fail on the distance bound.
  `setPositionAsync` fails only when the distance between the target and the
  estimate exceeds 1.1 × the stroke; otherwise it moves.
- `fullyExtend` and `fullyRetract` scale the remaining distance by the
  safety factor before calling `moveActuatorByDistance`.

## Model

| member | source | states |
|---|---|---|
| `Utils.InBounds` | src/utils.ts:10-16 | fails exactly when min > max; otherwise the result lies in [min, max], a value already inside is returned unchanged, values below min give min and values above max give max |
| `Utils.InBoundsIsNearest` | src/utils.ts:13-15 | the clamp is the point of [min, max] nearest to the value (independent characterisation) |
| `Utils.InBoundsIdempotent` | src/utils.ts:13-15 | clamping a clamped value returns the same result |
| `Utils.InBoundsMonotone` | src/utils.ts:13-15 | v1 <= v2 implies clamp(v1) <= clamp(v2) |
| `Gpio.Pin.constructor` | src/modules/GPIO_Component.ts:6-8 | a new output pin has the given level, is held, and has no writes |
| `Gpio.Pin.High` | src/modules/GPIO_Component.ts:10-12 | the level becomes high and one high write is logged |
| `Gpio.Pin.Low` | src/modules/GPIO_Component.ts:14-16 | the level becomes low and one low write is logged |
| `Gpio.Pin.Release` | src/modules/GPIO_Component.ts:18-21 | the pin is driven low (one write), then released |
| `Motor.DrivePattern` | src/modules/MotorDriver.ts:24-30 | exactly one pin is high, and pin1 is high iff the direction is retract |
| `Motor.MotorDriver.constructor` | src/modules/MotorDriver.ts:6-13 | two distinct held pins, both low, not moving; the invariant holds |
| `Motor.MotorDriver.Move` | src/modules/MotorDriver.ts:15-35 | while moving, fails with AlreadyMoving and changes nothing; otherwise sets moving and writes the direction's pattern (retract: pin1 high, pin2 low; extend: pin1 low, pin2 high); the two pins are never both high |
| `Motor.MotorDriver.Stop` | src/modules/MotorDriver.ts:37-44 | when not moving, changes nothing; when moving, writes both pins low and clears moving; afterwards not moving, so a second stop changes nothing |
| `Motor.MotorDriver.Cleanup` | src/modules/MotorDriver.ts:46-51 | stops, then releases both pins: not moving, both released and low, invariant kept |
| `Indicator.Led.constructor` | src/modules/LED.ts:16-23 | the state is the initial state and the pin starts low iff that state is on |
| `Indicator.Led.On` | src/modules/LED.ts:25-33 | when already on, nothing changes (no write, no callback); otherwise one low write, state on, and one callback with on if a callback is set |
| `Indicator.Led.Off` | src/modules/LED.ts:35-43 | when already off, nothing changes; otherwise one high write, state off, and one callback with off if a callback is set |
| `Indicator.Led.Toggle` | src/modules/LED.ts:45-51 | the state flips, with the single write and callback of that change |
| `Indicator.Led.SetState` | src/modules/LED.ts:53-59 | the state becomes the requested one; if it already was, nothing changes (so a repeat emits no callback) |
| `Indicator.Led.GetState` | src/modules/LED.ts:61-67 | returns the current state, callable at any time; while the pin is held, the state is on iff the pin is low |
| `Indicator.Led.Calibrate` | src/modules/LED.ts:69-72 | the state ends off, switching only if it was on |
| `Indicator.Led.Cleanup` | src/modules/LED.ts:74-78 | releases the pin (driven low, released) and keeps the state |
| `Actuator.Ceil` | src/modules/LinearActuator.ts:154 | the result is the least integer not below x |
| `Actuator.MaxDistance` | src/modules/LinearActuator.ts:36 | the distance bound exceeds the stroke (overtravel allowance of factor 1.1, line 17) |
| `Actuator.ToDurationMs` | src/modules/LinearActuator.ts:153-156 | the duration in ms, times the speed, covers distance × 1000 and overshoots it by less than one ms of travel |
| `Actuator.MaxDuration` | src/modules/LinearActuator.ts:37 | the duration bound's travel exceeds 1000 × the stroke |
| `Actuator.DurationMonotone` | src/modules/LinearActuator.ts:153-156 | a longer distance never converts to a shorter duration |
| `Actuator.AcceptedDistanceFitsDuration` | src/modules/LinearActuator.ts:69-78 | every distance moveActuatorByDistance accepts converts to a duration in [0, MAX_MOVEMENT_DURATION], nonzero for a nonzero distance, so the inner duration check never fails |
| `Actuator.Moved` | src/modules/LinearActuator.ts:57-64 | the estimate after a move always lies in [0, strokeLength] |
| `Actuator.MovedIsMonotone` | src/modules/LinearActuator.ts:58-62 | from an in-bounds start, extend never lowers and retract never raises the estimate; unless clamped, the displacement is exactly durationMs × speed |
| `Actuator.TravelCoversDistance` | src/modules/LinearActuator.ts:153-156 | the travel of the converted duration is at least 1000 × the distance, and so at least the distance itself |
| `Actuator.FullyExtendReachesStroke` | src/modules/LinearActuator.ts:80-86 | from an in-bounds position short of the end, fullyExtend's move lands on strokeLength |
| `Actuator.FullyRetractReachesZero` | src/modules/LinearActuator.ts:88-94 | from an in-bounds position above 0, fullyRetract's move lands on 0 |
| `Actuator.CalibrateReachesZero` | src/modules/LinearActuator.ts:121-125 | calibrate's move lands on 0 from any estimate up to 1000 × the distance bound |
| `Actuator.SetPositionNeverFallsShort` | src/modules/LinearActuator.ts:100-113 | between in-bounds positions, the move ends at or past the target in the direction of travel |
| `Actuator.SetPositionOvershootExample` | src/modules/LinearActuator.ts:58 | stroke 150, speed 5, from 0 to 100: 20000 ms, ending at 150, not 100 |
| `Actuator.LinearActuator.constructor` | src/modules/LinearActuator.ts:29-38 | the position is the unvalidated initial one; the distance bound is stroke × 1.1 and the duration bound is its ceiling conversion; both pins are distinct, held and low |
| `Actuator.LinearActuator.GetPosition` | src/modules/LinearActuator.ts:96-98 | returns the current estimate and changes nothing |
| `Actuator.LinearActuator.SetMovementDirection` | src/modules/LinearActuator.ts:143-151 | one relay write, appended to the trace: low for extend, high for retract |
| `Actuator.LinearActuator.SetCurrentFlow` | src/modules/LinearActuator.ts:133-141 | one MOSFET write, appended to the trace: high for on, low for off |
| `Actuator.LinearActuator.SetPositionValue` | src/modules/LinearActuator.ts:158-165 | the stored position is the value clamped into the stroke, and it is reported once if a callback is set |
| `Actuator.LinearActuator.Stop` | src/modules/LinearActuator.ts:115-119 | the trace gains a low MOSFET write followed by a low relay write; the estimate is not touched |
| `Actuator.LinearActuator.RelayLow` | src/modules/LinearActuator.ts:118 | one low relay write, appended to the trace in the same step |
| `Actuator.LinearActuator.ReleaseRelay` | src/modules/LinearActuator.ts:129 | the relay is flushed (one low write, then released), appended to the trace in the same step |
| `Actuator.LinearActuator.ReleaseMosfet` | src/modules/LinearActuator.ts:130 | the MOSFET is flushed (one low write, then released), appended to the trace in the same step |
| `Actuator.LinearActuator.MoveActuator` | src/modules/LinearActuator.ts:40-67 | fails with InvalidDuration exactly when the duration is outside [0, MAX_MOVEMENT_DURATION], then touching nothing; a zero duration touches nothing; otherwise the trace gains, in order, the relay set for the direction (low to extend, high to retract), the MOSFET switched on, the MOSFET cut and the relay set low; the estimate becomes clamp(position ± durationMs × speed) and is reported once |
| `Actuator.LinearActuator.MoveActuatorByDistance` | src/modules/LinearActuator.ts:69-78 | fails with InvalidDistance exactly when the distance is outside [0, MAX_MOVEMENT_DISTANCE]; zero touches nothing; otherwise a completed move of the ceiling-converted duration (the inner check never fails) |
| `Actuator.LinearActuator.FullyExtend` | src/modules/LinearActuator.ts:80-86 | succeeds exactly when the start is within [0, strokeLength], and then ends at strokeLength |
| `Actuator.LinearActuator.FullyRetract` | src/modules/LinearActuator.ts:88-94 | succeeds exactly when the start is within [0, strokeLength], and then ends at 0 |
| `Actuator.LinearActuator.SetPositionAsync` | src/modules/LinearActuator.ts:100-113 | rejects targets outside [0, strokeLength] with InvalidPosition; equal target is a no-op; otherwise a move of the absolute difference, an extend iff the target exceeds the estimate and a retract iff it is below; from an in-bounds start it succeeds and ends at or past the target |
| `Actuator.LinearActuator.Calibrate` | src/modules/LinearActuator.ts:121-125 | always succeeds with a retract of the full duration bound, ending at 0 from any start up to 1000 × the distance bound |
| `Actuator.LinearActuator.Cleanup` | src/modules/LinearActuator.ts:127-131 | the relay, then the MOSFET, are written low and released (in that order in the trace); the estimate is kept |

## Left out

- Timing: `sleep`/`setTimeout` and `async`/`await` are not modelled. Moves are synchronous, and elapsed time is not state.
- Console logging is not modelled.
- The change callbacks (`onCurrentPositionChange`, `onCurrentStateChange`) are fire-and-forget promises in the source. The model records only the values passed to them, in a ghost log, and a flag says whether a callback is set.
- The hardware library behind `GPIO_Component` is not modelled. Pin numbers are not modelled either; distinct pins are distinct objects.
- Writes to a released pin are modelled as succeeding. On hardware they may throw. `MotorDriver.move` sets `isMoving` before its writes, so a throwing write would leave it set.
- `MotorDriver` and `LED` call `cleanup()` on their pins, and `LinearActuator` calls `flush()`. All three are modelled as `Pin.Release`: drive low, then release.
- `LED` passes an initial level to the pin constructor that `GPIO_Component` does not take. The model gives the pin the level the LED asks for: low iff the initial state is on. `LinearActuator`'s and `MotorDriver`'s pins are assumed to start low.
- The "Invalid direction" and "Invalid mode" branches are not modelled. `Direction` and `CurrentFlowMode` are datatypes with exactly two values, so those branches cannot be reached.
- IEEE-754 floating point is not modelled. Arithmetic is exact over `real`, including the factor 1.1.
- `SetupCache` (file I/O and JSON), `src/index.ts` (startup), `env.d.ts` and the deployment scripts are not part of this model.
- Indicator.Led.Valid: the active-low invariant is stated only while the pin is held, because release drives the pin low whatever the state.
