# BA Autonomous Rover — a verified model of the control core

A Dafny model of the three parts of the rover that decide how it moves:

- **The motor driver** (`src/motor_driver.py`) is the class `Motor.MotorDriver`. Its fields mirror the TB6612 H-bridge lines: PWM duty plus two direction pins per wheel, and STBY. It also keeps the ramp tracker `current_speed_val`.
  - The ramped throttle (`set_speed`) walks the tracker toward its remapped target in 0.05 steps, applying each intermediate value.
  - The direct differential command (`drive`) bypasses the ramp. It clamps each wheel to [-1, 1], maps the dead zone |s| < 0.05 to 0, and lifts every other request above the stall threshold.
  - A ghost field `applied` records every speed `_apply_speed` put on the wheels, so each method's contract can state the exact sequence of speeds it applied.
  - A ghost field `requests` records every `stop` and `drive` request the driver received, so the controller's contracts can state exactly what it asked of the driver.
- **The lidar strategy** (`src/lidar_only/lidar_strategy.py`):
  - Framing of the sensor's byte stream: header 0x54 0x2C, then a 45-byte payload.
  - Little-endian decoding of the start and end angles and of twelve distances.
  - The 0° seam fix of the end angle, linear angle interpolation, the 90° mounting offset taken modulo 360, and sector classification.
  - The per-sector estimate update: a closer valid sample replaces the estimate; a valid sample that is not closer raises it by 1 cm.
  - The class `Lidar.LidarStrategy` holds the three estimates. Its scan loop and point loop are `while`/`for` loops, each proved against the pure specification `Lidar.Scan` / `Lidar.Fold`.
- **The controller** (`main.py`):
  - The mode check.
  - The proportional base speed from the front distance, clamped to [MIN_APPROACH_SPEED, DEFAULT_SPEED].
  - The steering term from the side cushions and the differential mix.
  - On an unsafe reading, the escape sequence: forced stop, reverse at -0.3, then a ramped stop.
  - `Rover.ControlLoop` runs the loop over a finite series of readings against a real `MotorDriver`. The calls it issues and the way it ends are proved equal to the pure trace `Rover.RunFrom`, and the driver's request log grows by exactly those calls. The wheels end showing the last `drive`, and a run that ends on an unsafe reading leaves the rover stopped (unless it raised at the first reading, which leaves the rover as it was).

The files are:

- `wrappers.dfy`: Option and Result.
- `config.dfy`: the constants of `src/constants.py` that the core uses.
- `motor_driver.dfy`
- `lidar_strategy.dfy`
- `main.dfy`

Facts about the source that the model makes explicit:

- **Decay rule.** An estimate grows by 1 cm only when a valid sample lands in its sector and is not closer than the estimate. A sector that receives no valid sample keeps its value unchanged (`Lidar.FoldUntouched`). So estimates do not "decay" with time or with silence.
- **`check_path` shape.** `check_path` (`src/lidar_only/lidar_strategy.py:112-113`) returns three values. `main.py:39` unpacks four, which is the `(is_safe, front, left, right)` shape that `src/interfaces.py:8` documents.
  - The controller is modelled on the documented four-value `Reading`, with `is_safe` as an input.
  - Nothing in the lidar strategy computes `is_safe`.
- **Unbound wheel speeds.** The unsafe branch formats `left_motor_speed` and `right_motor_speed` into its log line (`main.py:69`). Only the safe branch assigns them. So an unsafe reading on the very first tick raises before any motor call.
  - The loop model carries the two speeds as `Option`s and ends with `UnboundMotorSpeed(k)` in that case.
  - `Rover.LoopFailsIffFirstTickUnsafe` proves that this is the only way the loop fails.
- **Seam fix.** The fix adds 360 to an end angle that lies below the start angle. It guarantees end ≥ start only when the start angle is below 360°. Both raw fields can encode up to 655.35°, and `Lidar.WrapFixNeedsStartBelow360` exhibits a payload whose interpolation step is negative.
- **Constants missing from `src/constants.py`.** Five names are not defined there: `MIN_SPEED`, `MAX_SPEED`, `TURN_SPEED`, `STOPPING_DIST_CM` and `ACTION_BACKWARD`.
  - `MIN_SPEED`/`MAX_SPEED` are taken as -1.0/1.0, the values the driver's comments and docstring give.
  - `TURN_SPEED` and `STOPPING_DIST_CM` are parameters. The driver takes TURN_SPEED as a constructor argument; the controller takes both in `Params`. The model requires `STOPPING_DIST_CM < SLOWDOWN_DIST_CM` (so the speed-factor denominator is positive) and `TURN_SPEED > 0`.
  - `ACTION_BACKWARD` is only a log label.
- **Two remaps.** `set_speed` scales by `MAX_SPEED - STALL_THRESHOLD` and `drive` by `1 - STALL_THRESHOLD`. `Motor.ThrottleAgreesWithDrive` proves the two agree under MAX_SPEED = 1.0.

## Model

| member | source | states |
|---|---|---|
| Motor.Clamp | src/motor_driver.py:45-47 | the result lies in [lo, hi]; it is x when x is inside, lo below and hi above |
| Motor.MotorSignal | src/motor_driver.py:23-38 | duty is \|speed\|; IN1 is on iff speed > 0, IN2 iff speed < 0, never both; the signed duty the pins encode is the speed again |
| Motor.DriveRemap | src/motor_driver.py:121-126 | dead-zone inputs give 0; others give magnitude STALL + \|s\|·(1 − STALL) with the input's sign, never 0 |
| Motor.WheelCommand | src/motor_driver.py:115-129 | the duty `drive` sends lies in [-1, 1] and is 0 or at least STALL_THRESHOLD in magnitude; saturates at ±1 beyond the limits; forward iff s ≥ 0.05, backward iff s ≤ −0.05 |
| Motor.ThrottleRemap | src/motor_driver.py:52-64 | dead zone gives 0; otherwise magnitude STALL + \|t\|·(MAX − STALL), negative iff the target is |
| Motor.ThrottleTarget | src/motor_driver.py:45-64 | the landing value of `set_speed` lies in [MIN_SPEED, MAX_SPEED] and is 0 for a dead-zone request |
| Motor.RampNext | src/motor_driver.py:68-71 | a step moves the tracker exactly 0.05 toward the target; from more than 0.05 away it lands between the tracker and the target, 0.05 closer |
| Motor.RampNextDecreases | src/motor_driver.py:67-71 | one loop step brings the tracker exactly 0.05 closer to the target and decreases the number of whole steps left |
| Motor.RampSteps | src/motor_driver.py:66-73 | the loop applies no intermediate speed iff the tracker starts within 0.05 of the target |
| Motor.RampStepsWalk | src/motor_driver.py:66-73 | every intermediate speed lies between start and target, is exactly 0.05 from the one before and 0.05 closer to the target, and the last is within 0.05 of it |
| Motor.ThrottleAgreesWithDrive | src/motor_driver.py:121-126 | the `set_speed` remap (lines 52-64) and the `drive` remap give the same duty for every request |
| Motor.WheelCommandOdd | src/motor_driver.py:115-129 | mirrored requests give mirrored duties |
| Motor.DeadZoneStops | src/motor_driver.py:121-123 | `drive(0.03, 0.03)` leaves a wheel idle |
| Motor.FullForward | src/motor_driver.py:115-132 | a full request gives duty 1.0 with IN1 on |
| Motor.SpinInPlace | src/motor_driver.py:115-132 | ±0.5 give equal duties in opposite directions |
| Motor.MotorDriver.constructor | src/motor_driver.py:7-21 | devices start idle, STBY on, tracker 0, nothing applied |
| Motor.MotorDriver.SetMotor | src/motor_driver.py:23-38 | the chosen channel shows `MotorSignal(speed)`; the other channel, STBY and the tracker are unchanged |
| Motor.MotorDriver.ApplySpeed | src/motor_driver.py:82-84 | both channels show the same signal; the speed is appended to the applied sequence |
| Motor.MotorDriver.RampOnce | src/motor_driver.py:68-73 | one iteration moves the tracker one step toward the target and applies it: both channels show `MotorSignal` of the new tracker |
| Motor.MotorDriver.SetSpeed | src/motor_driver.py:40-80 | the tracker lands on `ThrottleTarget(target)`; the applied speeds are exactly the ramp walk from the old tracker, then the target; both wheels end at the target |
| Motor.MotorDriver.Move | src/motor_driver.py:86-87 | as `SetSpeed` |
| Motor.MotorDriver.TurnLeft | src/motor_driver.py:89-93 | left wheel at −TURN_SPEED, right at +TURN_SPEED, tracker reset to 0, no throttle speed applied |
| Motor.MotorDriver.TurnRight | src/motor_driver.py:95-98 | left wheel at +TURN_SPEED, right at −TURN_SPEED, tracker reset to 0 |
| Motor.MotorDriver.Stop | src/motor_driver.py:100-109 | both wheels idle and tracker 0; forced: only 0 is applied; otherwise the ramp walk to 0, then 0; the request is logged |
| Motor.MotorDriver.Drive | src/motor_driver.py:111-132 | each wheel shows its `WheelCommand`; the tracker and the applied sequence are untouched; the request is logged |
| Motor.MotorDriver.Cleanup | src/motor_driver.py:134-140 | ramps to 0 (wheels idle, tracker 0), switches STBY off and closes it; it reports the closed-device error iff STBY was already closed |
| Motor.CleanupTwice | src/motor_driver.py:134-140 | on an open driver the first `cleanup` succeeds and the second raises on the closed STBY device; the second applies a single 0 with no ramp, and the driver ends stopped and disabled |
| Lidar.LE16 | src/lidar_only/lidar_strategy.py:85-87 | the value is below 65536 and its low and high bytes are the two inputs |
| Lidar.PointPos | src/lidar_only/lidar_strategy.py:84 | each distance field lies inside the payload, after the start-angle field and before the end-angle field |
| Lidar.PointFieldsDisjoint | src/lidar_only/lidar_strategy.py:84-87 | distance fields of different points never overlap |
| Lidar.StartAngle | src/lidar_only/lidar_strategy.py:76 | the start angle is in [0, 655.36) |
| Lidar.RawEndAngle | src/lidar_only/lidar_strategy.py:77 | the transmitted end angle is in [0, 655.36) |
| Lidar.EndAngle | src/lidar_only/lidar_strategy.py:77-79 | the end angle is the raw one or 360 more, unchanged iff not below the start; not below the start once the start is below 360 |
| Lidar.AngleStep | src/lidar_only/lidar_strategy.py:77-79 | eleven steps lead from the start angle to the fixed end angle; the step is never negative once the start is below 360 |
| Lidar.RawAngle | src/lidar_only/lidar_strategy.py:89 | point 0's interpolated angle is the start angle |
| Lidar.StepWithin | src/lidar_only/lidar_strategy.py:79-89 | of eleven equal steps from lo to hi the last lands on hi, and with lo ≤ hi every point lies between them |
| Lidar.Mod360 | src/lidar_only/lidar_strategy.py:91 | Python's float `% 360`: the result is in [0, 360), differs from x by a whole multiple of 360, and is x itself on [0, 360) |
| Lidar.Corrected | src/lidar_only/lidar_strategy.py:90-91 | the corrected heading is in [0, 360) |
| Lidar.GetSector | src/lidar_only/lidar_strategy.py:43-54 | front iff angle ≥ 340 or < 20; left iff in [270, 340); right iff in [20, 90); none iff in [90, 270) |
| Lidar.PointDistance | src/lidar_only/lidar_strategy.py:84-88 | the distance in cm is in [0, 6553.6) |
| Lidar.DecodePoint | src/lidar_only/lidar_strategy.py:84-93 | point i's heading is its interpolated angle start + i·step plus the 90° offset, taken modulo 360, so it lies in [0, 360); its sector is the heading's; its distance is the LE16 at bytes 4+3i, 5+3i over 10 |
| Lidar.DecodePayload | src/lidar_only/lidar_strategy.py:71-93 | a packet exists iff the payload has 45 bytes; its start and end angles are the decoded and seam-fixed ones; sample i is the decoded point i, so its distance is the LE16 at bytes 4+3i, 5+3i over 10, its heading is in [0, 360) and its sector is the heading's |
| Lidar.DecodeEncode | src/lidar_only/lidar_strategy.py:76-88 | decoding a payload built from raw start, end and twelve distances gives back the start angle, the end angle (up to the seam fix) and every distance |
| Lidar.InterpolationEndpoints | src/lidar_only/lidar_strategy.py:80-90 | point 0 sits at the start angle and point 11 at the fixed end angle |
| Lidar.EndpointHeadings | src/lidar_only/lidar_strategy.py:79-90 | point 0 faces the corrected start angle and point 11 the corrected end angle |
| Lidar.InterpolationWithin | src/lidar_only/lidar_strategy.py:79-89 | with the start below 360 every point's interpolated angle lies between the start and the fixed end angle |
| Lidar.WrapFixNeedsStartBelow360 | src/lidar_only/lidar_strategy.py:76-80 | a start field of 500° with an end of 100° is fixed to 460°, still below the start, so the step is negative |
| Lidar.Update | src/lidar_only/lidar_strategy.py:95-110 | invalid or unsectored samples change nothing; other sectors are untouched; a closer valid sample replaces the estimate, else it grows by 1; positivity is kept |
| Lidar.Fold | src/lidar_only/lidar_strategy.py:83-110 | applying any run of samples keeps every estimate positive |
| Lidar.ApplyPayload | src/lidar_only/lidar_strategy.py:76-110 | applying a complete payload keeps every estimate positive |
| Lidar.FoldUntouched | src/lidar_only/lidar_strategy.py:95-110 | a sector no valid sample lands in keeps its estimate |
| Lidar.FoldDecayBound | src/lidar_only/lidar_strategy.py:95-110 | over n samples an estimate grows by at most n cm |
| Lidar.FoldDecaysExactly | src/lidar_only/lidar_strategy.py:99-100 | n valid samples in a sector, none closer than the estimate they meet, raise it by exactly n cm |
| Lidar.ReadBytes | src/lidar_only/lidar_strategy.py:68-71 | a read returns min(n, what remains) bytes, the next ones in the stream |
| Lidar.NextFrame | src/lidar_only/lidar_strategy.py:66-73 | a non-0x54 byte costs 1 byte, 0x54 then a wrong byte costs 2; a short payload iff the header is followed by fewer than 45 bytes (fewer than 47 in all); a complete packet iff 47 bytes start with the header, its payload being bytes 2..47 |
| Lidar.GateRulesOutShortPayload | src/lidar_only/lidar_strategy.py:66-73 | with more than 47 bytes waiting, the payload read is never short |
| Lidar.Scan | src/lidar_only/lidar_strategy.py:65-110 | any byte stream, however malformed, keeps the estimates positive |
| Lidar.ScanNoHeader | src/lidar_only/lidar_strategy.py:65-70 | a stream in which 0x54 is never directly followed by 0x2C leaves the estimates unchanged |
| Lidar.LidarStrategy.constructor | src/lidar_only/lidar_strategy.py:30-32 | the three estimates start at 999 |
| Lidar.LidarStrategy.ApplySample | src/lidar_only/lidar_strategy.py:95-110 | the estimates become `Update(old, sample)` |
| Lidar.LidarStrategy.PayloadAngles | src/lidar_only/lidar_strategy.py:75-79 | the decoded start angle and the step after the seam fix are `StartAngle` and `AngleStep` |
| Lidar.LidarStrategy.ApplyPoint | src/lidar_only/lidar_strategy.py:84-110 | one iteration of the point loop applies the decoded point i |
| Lidar.LidarStrategy.ProcessPayload | src/lidar_only/lidar_strategy.py:76-110 | the for loop leaves the estimates at `Fold` of the twelve decoded samples |
| Lidar.LidarStrategy.ReadFrame | src/lidar_only/lidar_strategy.py:66-110 | one pass consumes what `NextFrame` says and applies the payload iff it is complete |
| Lidar.LidarStrategy.ScanLoop | src/lidar_only/lidar_strategy.py:56-110 | the while loop leaves the estimates at `Scan(old, stream)` and keeps them positive |
| Lidar.LidarStrategy.CheckPath | src/lidar_only/lidar_strategy.py:112-113 | returns the three current estimates, all positive, without changing them |
| Rover.GetStrategy | main.py:11-17 | succeeds iff the mode is "lidar"; every other mode is an `InvalidMode` error |
| Rover.CameraAndFusionRejected | main.py:11-17 | the advertised "camera" and "fusion" modes are rejected |
| Rover.SpeedFactorEnds | main.py:43-45 | the factor is 0 at the stopping distance and 1 at 55 cm |
| Rover.SpeedFactorIncreasing | main.py:43-45 | the factor strictly increases with the front distance |
| Rover.BaseSpeed | main.py:46-48 | the base speed lies in [MIN_APPROACH_SPEED, DEFAULT_SPEED] |
| Rover.BaseSpeedCruise | main.py:43-48 | at or beyond 55 cm the rover cruises at DEFAULT_SPEED |
| Rover.BaseSpeedCreep | main.py:43-48 | at or inside the stopping distance it creeps at MIN_APPROACH_SPEED |
| Rover.BaseSpeedMonotone | main.py:43-48 | a closer obstacle never gives a higher base speed |
| Rover.BaseSpeedAt120 | main.py:43-48 | 120 cm gives 0.55 |
| Rover.BaseSpeedMidway | main.py:43-48 | midway between 25 cm and 55 cm the factor is 0.5 and the speed half of DEFAULT_SPEED |
| Rover.Push | main.py:53 | a side reading inside the cushion pushes by a positive fraction, at most 1 |
| Rover.TurnValue | main.py:51-58 | no steering when both sides are clear; a wall inside the left cushion alone steers right (positive term), one inside the right cushion alone steers left |
| Rover.TurnZeroWhenClearOrCentred | main.py:51-58 | no steering when both sides are clear or equally far |
| Rover.TurnBounded | main.py:51-58 | the steering term lies in [−TURN_SPEED, TURN_SPEED] |
| Rover.TurnAntisymmetric | main.py:51-58 | swapping the walls negates the steering |
| Rover.Mix | main.py:80-81 | the wheel commands sum to twice the base speed and differ by twice the turn |
| Rover.Tick | main.py:60-83 | a tick takes the escape branch iff the reading is unsafe |
| Rover.TickDrives | main.py:79-83 | a safe tick drives at the mix of base speed and steering |
| Rover.Calls | main.py:71-83 | a tick issues one call iff it drives; a drive tick's call is its `drive`; the escape starts with a forced stop, then reverses both wheels equally, and ends with a ramped stop |
| Rover.TickCalls | main.py:60-83 | a safe tick issues one `drive` whose commands lie in [MIN_APPROACH − TURN, DEFAULT + TURN]; an unsafe one issues force stop, drive(−0.3, −0.3), ramped stop |
| Rover.Run | main.py:37-92 | the loop over given decisions fails only at a tick that escapes while no speeds are assigned, and then issues no call |
| Rover.RunFrom | main.py:37-92 | the loop fails only at a tick whose reading is unsafe while no speeds are assigned, and then issues no call |
| Rover.NextMix | main.py:79-81 | a safe tick assigns its mix; an unsafe one keeps the previous speeds; assigned speeds stay assigned, and they are unassigned iff they were and the tick is unsafe |
| Rover.RunWithMixNeverFails | main.py:38-92 | once the speeds are assigned the loop never raises and issues every tick's calls |
| Rover.LoopFailsIffFirstTickUnsafe | main.py:60-70 | the loop raises iff its first reading is unsafe, and then before any motor call |
| Rover.EscapeManoeuvre | main.py:71-77 | the driver receives exactly force stop, drive(−0.3, −0.3), ramped stop; it ends with both wheels idle and the tracker at 0, having applied exactly 0 and 0 |
| Rover.Execute | main.py:60-83 | the driver receives exactly the tick's calls; a drive tick shows each wheel's `WheelCommand` and leaves the ramp untouched; an escape tick applies 0 and 0 and ends stopped |
| Rover.LoopIteration | main.py:39-92 | raises iff the reading is unsafe with no speeds assigned (rover untouched); otherwise the driver receives exactly the tick's calls and the speeds update as `NextMix` says; a safe tick shows each wheel's `WheelCommand` of the new speeds with the ramp untouched; an escape applies 0 and 0 and ends stopped |
| Rover.ProgressStep | main.py:60-92 | a tick that does not raise moves its calls from the rest of the trace to the issued prefix |
| Rover.Iterate | main.py:39-92 | an iteration that raises leaves the rover untouched and is the loop's failure at that tick; otherwise the loop's trace and the driver's request log both move one tick on |
| Rover.ControlLoop | main.py:37-92 | the issued calls and the failure are exactly `RunFrom(readings, 0, None)`; the driver's request log grows by exactly those calls; its wheels show the last `drive`; a failure leaves the rover untouched; a run that does not fail and ends on an unsafe reading leaves it stopped |

## Left out

- Threads. The scan loop runs as a plain call over a finite byte stream, so the interleaving of the background thread with `check_path` and `running`/`stop` is not modelled.
- Serial I/O. `in_waiting` is modelled as "every remaining byte is already waiting". Bytes that arrive later, `timeout=1` reads, `reset_input_buffer` and port open/close are not modelled.
- Stream tail. Under that gate the scan stops with up to 47 bytes unread, as the source would while waiting for more.
- gpiozero. Device construction, pin numbers and the hardware itself are not modelled. Pins are fields and duty is a real. `STBY.close()` is modelled only as a flag: a write to a closed STBY device raises, which `cleanup` reports as an error result.
- `sleep`, `print` and `ThesisLogger` output: timing and logging have no effect on the state modelled.
- `argparse`, the `try`/`except Exception` around start-up, and the `KeyboardInterrupt`/`finally` shutdown of `main`. `cleanup` itself is modelled (`Motor.MotorDriver.Cleanup`). `brain.stop()` is not.
- The `is_safe` computation. The lidar strategy never produces it; the controller takes it as input.
- Floating point. All arithmetic is on exact reals, so IEEE rounding of the ramp steps, the angle interpolation and the `% 360` is not modelled. The ramp loop's termination uses the exact measure.
- Lidar packet bytes the code never reads: the speed field, the timestamp and the CRC.
- `src/camera_only` and `src/fusion/fusion_strategy.py`. Their strategies are never constructed by `get_strategy`.
- `src/interfaces.py` beyond the documented `check_path` shape; `assets/visualization/*`; `tests/motor_calibration.py`.
- `Lidar.DecodeEncode`: the end angle is given back only up to the seam fix, because the decoder adds 360 whenever the raw end angle lies below the start angle.
- Motor.MotorDriver.TurnLeft: a TURN_SPEED above 1 makes gpiozero's PWM device raise on the duty write. The model writes the value as given and does not model that error; the same holds for Motor.MotorDriver.TurnRight.
- `Rover.ControlLoop`: runs over a finite series of readings and stops when it runs out, where the source loops until interrupted.
