# ROV command path

This project models the command path of the club's underwater vehicle (ROV). The path runs from the surface joysticks to the thrusters, servos and steppers on the Raspberry Pi.

- **Surface joysticks.** Joystick item state (buttons, toggles, axes, hats) is updated by pygame events and polls. Each joystick turns its state into a `pin:val;` text message (`surface/arm.py`, `surface/stepper.py`, `surface/client.py`, `surface/clienttest.py`). The Xbox drive controller (`surface/joystick.py`) turns its state into a velocity vector, status flags and claw values.
- **Receivers on the Pi.** Two receivers split a message into pieces and drive board pins. `pi/armFromPi.py` stops at `&`, skips empty pieces and drives two steppers. `pi/server.py` is strict and drives servo pins.
- **Control core** (`common/utils.py`, `pi/utils.py`, `surface/common/utils.py`, `pi/rov_state.py`):
  - the `linear_map` helpers;
  - the PID controller with rate and magnitude limits;
  - the slew-rate limiter;
  - the six-axis `VelocityVector`;
  - the thruster mix and one control-loop step.
- **Actuators** (`pi/hardware.py`, `pi/sim_hardware.py`): range mapping and `set_val` range checks.
- **Depth window.** The depth readings are kept in a sliding window (`pi/depth-sensor.py`, `pi/mock_depth_sensor.py`).
- **Launcher.** Before the surface window opens, the launcher checks the camera ports, builds the video pipeline strings, filters Qt messages and looks up the widget (`surface/xgui.py`, `surface/launch.py`).

## How the model is built

- **Errors.** Python exceptions are values of `Errors.PyError`. They are carried in `Result`/`Outcome`, so every error path the code has is part of a contract.
- **Clocks.** `time.time()` and `time_ms()` become parameters: a `now` reading, or, for the commands of one armFromPi message, one reading per command (`clock(k)`).
- **Pin writes.** Board pin writes are appended to a `writes` log field. A pygame device reading is a parameter.
- **Functions defined outside the model.** `utils.deadzone_retrict` is not part of this model; it is a function parameter. Python's `str` of a float is also a function parameter (`repr`).
- **Integer conversion.** Python `int()` of a float truncates toward zero (`Numeric.Trunc`). `str(int)` is `Decimal.IntToString` and `int(str)` is `Decimal.ParseInt`.
- **Dictionaries.**
  - Insertion-ordered dictionaries with keys `0..n-1` are sequences.
  - A missing key is a `KeyError`.
  - Out-of-range list indexes follow Python: negative indexes count from the end, and the rest are an `IndexError`.
- **Shared code.** The three copies of `PIDController` and `VelocityVector` are identical in the parts modelled, so each is modelled once (`Pid`, `Velocity`). The table cites every copy.
- **Qt message types.** In Qt, `QtSystemMsg` is the same value as `QtCriticalMsg`. The `match` of `get_logger_func` therefore logs system messages at critical level; its `QtSystemMsg` case never runs (`Launcher.LoggerFunc`).

## Model

| member | source | states |
|---|---|---|
| Numeric.Trunc | pi/hardware.py:122 | Python `int()` of a float: truncation toward zero, within 1 of the argument on its side of zero |
| Errors.ListPosition | pi/server.py:60 | a Python list index in range, negative ones counting from the end |
| Text.Split | pi/server.py:64 | `str.split(sep)`: at least one part, none containing the separator |
| Text.Strip | surface/xgui.py:194 | `str.strip()` over ASCII white space: the result neither starts nor ends with white space |
| Text.DropLast | surface/arm.py:219 | `s[:-1]`: the text without its last character, which put back gives `s` |
| Decimal.IntToString | surface/arm.py:145 | `str(int)`: a non-empty run of digits, possibly signed |
| CommonUtils.LinearMap | common/utils.py:10-23 | errors (division by zero) exactly when `in_min == in_max`; otherwise the affine formula |
| CommonUtils.LinearMapEndpoints | surface/common/utils.py:10-23 | `in_min` maps to `out_min` and `in_max` to `out_max` |
| CommonUtils.LinearMapAffine | common/utils.py:23 | the map preserves weighted means of two inputs (it is affine in `x`) |
| CommonUtils.MakeXyzDict | common/utils.py:35-41 | exactly the keys x, y, z with the given values |
| CommonUtils.InitImuData | common/utils.py:49-68 | exactly the four IMU entries; the acceleration, gyroscope and magnetometer triples are zero; the quaternion's i, j, k, real are zero |
| CommonUtils.SlewStep | common/utils.py:196-202 | the new value lies between the old value and the target, within `max_rate*dt` of the old value, and equals the target when the target is within reach |
| CommonUtils.SlewRepeat | common/utils.py:196-202 | once the limiter lands on the target, asking for it again keeps it there (idempotent) |
| CommonUtils.SlewConverges | common/utils.py:196-202 | `n` updates reach the target once `n*max_rate*dt` covers the distance |
| CommonUtils.SlewStepCloser | common/utils.py:196-202 | far from the target, one update closes the distance by exactly `max_rate*dt` |
| CommonUtils.SlewStaysAt | common/utils.py:196-202 | a limiter at its target stays there over any number of updates |
| CommonUtils.SlewRateLimiter.constructor | common/utils.py:184-186 | stores the rate and the initial value |
| CommonUtils.SlewRateLimiter.Update | common/utils.py:188-202 | the returned value is the new `last_value`, one `SlewStep` from the old one |
| PiUtils.LinearMap | pi/utils.py:10-23 | errors exactly when `in_min == in_max`; otherwise always in [-5, 5] |
| PiUtils.LinearMapUnclamped | pi/utils.py:23 | where the affine value is already in [-5, 5], the result is that value |
| Velocity.AsDict | common/utils.py:115-123 | the dictionary of a vector has exactly the six field names |
| Velocity.Component | pi/utils.py:30-38 | the i-th field in declaration order is what `v[Keys[i]]` reads |
| Velocity.GetItem | surface/common/utils.py:45-46 | `KeyError` exactly for names other than the six fields |
| Velocity.SetItemIsNoOp | pi/utils.py:40-41 | item assignment as written leaves every field unchanged, for every key and value |
| Velocity.WithItemReadsBack | common/utils.py:110-113 | `setattr` with a field name makes that key read back the value |
| Velocity.WithItemKeepsOthers | common/utils.py:110-113 | `setattr` leaves every other key's value as it was, whatever the name |
| Velocity.FromDict | surface/common/utils.py:40-43 | every field is the last value given for it in the dictionary, or 0.0 when none is given |
| Velocity.FromDictStep | common/utils.py:112-113 | one `setattr` keeps every field equal to the last value given for it |
| Velocity.ToDict | surface/common/utils.py:55-57 | exactly the six axis keys, each with its field's value |
| Pid.Initial | common/utils.py:133-156 | gains and limits as given; last error, last output and integral 0 |
| Pid.Next | common/utils.py:166-181 | integral grows by `error*dt`; last error and last output are recorded; gains and limits are unchanged |
| Pid.OutputBounded | common/utils.py:176-177 | with `max_output >= 0`, every output lies in [-max_output, max_output] |
| Pid.OutputRateBounded | pi/utils.py:66-88 | from a last output within range, the output moves by at most `max_rate_of_change*dt` |
| Pid.SaturateStaysInBand | surface/common/utils.py:101-107 | the magnitude clamp never undoes the rate limit |
| Pid.Run | common/utils.py:158-181 | a run of updates yields one output per step |
| Pid.RunBounded | surface/common/utils.py:85-107 | over any run with positive steps, every output is within `max_output` and within `max_rate_of_change*dt` of the one before it, starting from `last_output = 0` |
| Pid.LimitedCons | pi/utils.py:82-88 | a bounded first output followed by a bounded run is a bounded run |
| Pid.PIDController.constructor | pi/utils.py:51-67 | the state is `Initial` with the given gains and limits |
| Pid.PIDController.Update | surface/common/utils.py:88-111 | `dt == 0` raises `ZeroDivisionError` and changes nothing; otherwise returns `Output`, moves to `Next` and is within its magnitude limit |
| RovState.RawMix | pi/rov_state.py:47-54 | six values, one per thruster name |
| RovState.RawMixLinear | pi/rov_state.py:47-54 | the mix of a sum is the sum of the mixes; the zero vector mixes to zeros |
| RovState.RawMixIgnoresPitch | pi/rov_state.py:47-54 | pitch feeds no thruster |
| RovState.RawMixWithinThree | pi/rov_state.py:47-54 | components in [-1, 1] keep every raw mix value in [-3, 3] |
| RovState.NormalizeAll | pi/rov_state.py:56-58 | succeeds exactly when there is nothing to map or the input range has width |
| RovState.MixAlwaysFails | pi/rov_state.py:57-58 | as written, the normalisation over (-3, -3) divides by zero for every velocity |
| RovState.NormalizeAllThirds | pi/utils.py:23 | over (-3, 3), each value is its raw mix divided by 3, clamped to [-5, 5] |
| RovState.NormalizedMixInUnitRange | pi/rov_state.py:56-58 | corrected: with every component in [-1, 1], every thruster value is in [-1, 1] |
| RovState.FromOutputs | pi/rov_state.py:71-76 | the vector whose fields are the outputs, in key order |
| RovState.StoreOutputsAsWritten | pi/rov_state.py:71-76 | as written, `output_velocity[axis] = ...` leaves the vector at zero |
| RovState.StoreOutputs | pi/rov_state.py:71-76 | corrected: the vector holds every controller's output |
| RovState.Reached | pi/rov_state.py:80-81 | the names, from the first, whose `set_val` succeeds before the first one that raises: a missing name or a value the thruster rejects |
| RovState.FailureAt | pi/rov_state.py:80-81 | a missing name raises `KeyError`; a present thruster that rejects its value raises `ValueError` |
| RovState.Stored | pi/rov_state.py:80-81 | the value each reached thruster stores, its own `linear_map` of the mix entry, in name order |
| RovState.InBandAcceptsUnit | pi/hardware.py:89-122 | a `Thruster` or `SimThruster` whose active range lies inside its check accepts every value in [-1, 1] (with pi/sim_hardware.py:20-28) |
| RovState.UnitMixReachesAll | pi/rov_state.py:80-81 | with every name on such a thruster, a mix in [-1, 1] reaches all six |
| RovState.DefaultThrusterRejectsPastFull | pi/hardware.py:89-122 | a default forward `Thruster` maps any value from 1 + 1/300 up past 1800 and raises `ValueError` |
| RovState.UnitOutputsReachAll | pi/rov_state.py:71-81 | controller outputs in [-1, 1] give a corrected mix that reaches every in-band thruster |
| RovState.NormalizedMixFrontLeft | pi/rov_state.py:47-58 | corrected: the front-left value is (x + y + yaw) / 3, kept in [-5, 5] |
| RovState.FrontLeftOverloadRejected | pi/rov_state.py:71-84 | outputs with x + y + yaw of 3.01 or more (a surge output of 11, for one) make a default forward front-left thruster raise `ValueError` before any thruster is set |
| RovState.ROVState.constructor | pi/rov_state.py:18-35 | both velocities zero; six distinct fresh controllers with kp 1.0, ki 0.1, kd 0.01, limits 90 and 180; frequency 10; `last_time` is the clock; the thrusters map each name to its actuator |
| RovState.ROVState.UpdateAxis | pi/rov_state.py:72-76 | only that axis's controller changes, updated with target minus current for that axis |
| RovState.ROVState.UpdateControllers | pi/rov_state.py:67-76 | `dt == 0` raises `ZeroDivisionError` before any controller changes; otherwise every controller moves to `Next` with its own error and the same `dt`, and its `Output` is collected in axis order; the rest of the state is untouched |
| RovState.ROVState.ControlLoop | pi/rov_state.py:62-84 | as written, the loop always ends in `ZeroDivisionError` after updating the controllers: no thruster is set and `last_time` is not refreshed |
| RovState.ROVState.SendMix | pi/rov_state.py:80-81 | `set_val` for every mix entry in order, each accepted value stored, until a name has no thruster (`KeyError`) or its thruster rejects the value (`ValueError`); `last_time` untouched |
| RovState.ROVState.ApplyOutputs | pi/rov_state.py:71-84 | corrected: the mix of the outputs goes to the thrusters in turn until one raises; `last_time` is refreshed only when all six accepted, and stays otherwise |
| RovState.ROVState.ControlLoopCorrected | pi/rov_state.py:62-84 | corrected loop: `dt == 0` raises before anything changes; otherwise every controller is updated, the corrected mix goes to the thrusters until one raises `KeyError` or `ValueError`, and `last_time` moves on only when all six accepted |
| Hardware.CheckAngle | pi/hardware.py:92-93 | passes exactly for values in [0, limit]; otherwise `ValueError` |
| Hardware.ThrusterMapEndpoints | pi/hardware.py:118-122 | -1 and 1 map to the ends of the active range, swapped when reversed |
| Hardware.ThrusterMapMirror | pi/hardware.py:120-122 | a reversed thruster maps `x` where a forward one maps `-x` |
| Hardware.ThrusterMapInRange | pi/hardware.py:118-122 | commands in [-1, 1] map into the active range |
| Hardware.DefaultThrusterAccepts | pi/hardware.py:92-121 | with the default range, every command in [-1, 1] is accepted and lands in [1200, 1800] |
| Hardware.Servo.constructor | pi/hardware.py:80-83 | angle 90 |
| Hardware.Servo.SetVal | pi/hardware.py:85-95 | `int(val)` is stored when in [0, 1800]; otherwise `ValueError` with the angle unchanged |
| Hardware.Thruster.constructor | pi/hardware.py:112-116 | angle 1500, active range and reverse flag as given (default (1200, 1800), forward) |
| Hardware.Thruster.SetVal | pi/hardware.py:89-122 | the mapped value is stored when in [0, 1800]; otherwise `ValueError` with the angle unchanged |
| Hardware.PinLevels | pi/hardware.py:150-158 | (1, 0) below the dead zone, (0, 1) above it, (0, 0) otherwise; never both 1 |
| Hardware.PinLevelsSymmetric | pi/hardware.py:150-158 | positions within the dead zone stop the actuator, and only those |
| Hardware.LinActuator.constructor | pi/hardware.py:128-133 | position 0 and the given dead zone |
| Hardware.LinActuator.SetVal | pi/hardware.py:139-144 | stores the value exactly when it is in [-1, 1]; otherwise `ValueError` with the position unchanged |
| Hardware.LinActuator.RunOnce | pi/hardware.py:146-158 | one pass of `run` writes the pin levels of the current position |
| Hardware.StepperMapTenth | pi/hardware.py:45-46 | the map is `int(x/10)`, truncating toward zero, and odd |
| Hardware.Stepper.constructor | pi/hardware.py:38-42 | speed 0 and the given direction |
| Hardware.Stepper.SetVal | pi/hardware.py:48-54 | the speed is stored unchecked |
| Hardware.Stepper.Reverse | pi/hardware.py:56-60 | one write to the direction pin, and the direction flips |
| SimHardware.SimThrusterMapDefault | pi/sim_hardware.py:21-23 | with the default range the map is `int(60x + 90)`: -1 gives 30 and 1 gives 150 |
| SimHardware.SimThrusterAccepts | pi/sim_hardware.py:14-28 | every command in [-1, 1] is accepted and lands in [30, 150] |
| SimHardware.SimThruster.constructor | pi/sim_hardware.py:13-19 | angle 90, active range as given (default (30, 150)) |
| SimHardware.SimThruster.SetVal | pi/sim_hardware.py:25-31 | the mapped value is stored when in [0, 180]; otherwise `ValueError` with the angle unchanged |
| PinProtocol.Piece | surface/arm.py:145 | `pin:val` holds no `;`, `&` or newline, and splits on `:` into the two decimal numbers |
| PinProtocol.DecimalHasNoSeparator | surface/arm.py:145 | the decimal text of a number holds no `:`, `;`, `&` or newline |
| PinProtocol.PieceNonEmpty | surface/arm.py:145 | a piece is never empty |
| PinProtocol.FormatCommands | surface/arm.py:143-146 | the accumulated text is `pin:val;` per command, in order |
| PinProtocol.EncodeFree | surface/client.py:80-83 | the accumulated text holds no `&` or newline |
| PinProtocol.Pieces | surface/stepper.py:109-112 | one piece per command |
| PinProtocol.EncodeAppend | surface/arm.py:214-217 | the text of two command lists concatenated is the concatenation of their texts |
| PinProtocol.EncodeIsJoin | surface/stepper.py:109-112 | the text is the pieces joined by `;`, plus a final `;` |
| PinProtocol.JoinSnoc | surface/stepper.py:109-112 | joining one more piece appends `;` and that piece |
| PinProtocol.SplitEncoded | pi/server.py:64 | splitting the text without its final `;` gives exactly the pieces |
| PinProtocol.ParsePieceCases | pi/armFromPi.py:91 | a bad pin is a `ValueError`; then a missing `:` part an `IndexError`; then a bad value a `ValueError`; otherwise exactly the command of the two numbers |
| PinProtocol.ParsePieceOfPiece | pi/server.py:66 | every written piece parses back to its command |
| Decimal.DigitsOfNatToString | pi/armFromPi.py:91 | the decimal digits of a natural number read back as that number |
| Decimal.ParseIntToString | pi/armFromPi.py:91 | `int(str(n)) == n` for every integer |
| Decimal.StripIntToString | pi/armFromPi.py:91 | decimal text has no surrounding white space, so `int()` reads it as is |
| Decimal.ParseNatToString | pi/armFromPi.py:91 | the digits of a natural number read back as it |
| Decimal.ParseNegativeToString | pi/armFromPi.py:91 | a minus sign and digits read back as the negative number |
| Decimal.IntToStringInjective | surface/xgui.py:28 | distinct integers print differently |
| Text.JoinSplit | pi/server.py:64 | splitting and re-joining on a separator gives the text back |
| Text.SplitJoin | pi/server.py:64 | splitting a join of separator-free parts gives the parts |
| Text.StripUnchanged | surface/xgui.py:194 | stripping is idempotent |
| ArmFromPi.Turn | pi/armFromPi.py:54-59 | the stepper turns to face the sign of `val`, writing 1 (backward) or 0 (forward) to its direction pin only when the direction changes; zero changes nothing |
| ArmFromPi.Pulse | pi/armFromPi.py:73-82 | nothing happens for -2 <= val <= 2 or when not due; when due, `on` flips within {0, 1}, is written to the step pin, and `lastTime` becomes now |
| ArmFromPi.NegativeSpeedAlwaysFires | pi/armFromPi.py:76-78 | a negative speed gives a negative rest time, so a stepper not written in the future always fires |
| ArmFromPi.StepPins | pi/armFromPi.py:44 | the step pins of the table, in order |
| ArmFromPi.FirstWithPin | pi/armFromPi.py:45-49 | the first stepper on that pin |
| ArmFromPi.WriteOtherPin | pi/armFromPi.py:44 | a write to a pin other than 26 or 36 changes nothing |
| ArmFromPi.WriteStepPin | pi/armFromPi.py:43-68 | a step-pin write changes only that stepper, adds at most two writes to its own pins at level 0 or 1, and leaves it facing the sign of `val` |
| ArmFromPi.WriteAll | pi/armFromPi.py:89-91 | writes are only ever appended; the k-th command runs at its own clock reading |
| ArmFromPi.WriteAllSnoc | pi/armFromPi.py:89-91 | one more command runs on the state the earlier ones left, at the clock reading of its position |
| ArmFromPi.SameStepperFiresTwice | pi/armFromPi.py:73-82 | two fast pieces for one step pin, read far enough apart, both toggle it: it ends at its starting level with the later time |
| ArmFromPi.WriteAllValid | pi/armFromPi.py:43-82 | any sequence of commands keeps the table valid and drives only the configured pins, at levels 0 and 1 (with pi/armFromPi.py:27-33) |
| ArmFromPi.ParsePiecesFailSticks | pi/armFromPi.py:89-91 | the first bad piece ends the loop |
| ArmFromPi.ParseUpToAmpersand | pi/armFromPi.py:86 | text from the first `&` on is ignored |
| ArmFromPi.ParsePiecesSnoc | pi/armFromPi.py:89-91 | a good non-empty piece after a good prefix adds its command |
| ArmFromPi.ParsePiecesStep | pi/armFromPi.py:89-91 | after a prefix that parsed, an empty piece is skipped, a bad one ends the loop with its error, a good one adds its command |
| ArmFromPi.ParsePiecesOfPieces | pi/armFromPi.py:88-91 | the pieces of any commands parse back to those commands, in order |
| ArmFromPi.ParseJoysticksMessage | pi/armFromPi.py:85-91 | a non-empty command text without its final `;`, followed by `&`, parses to exactly its commands |
| ArmFromPi.ArmReceiver.constructor | pi/armFromPi.py:27-28 | steppers on pins 26 and 36 with direction pins 28 and 34, forward, `on` 1, started now; no writes |
| ArmFromPi.ArmReceiver.WriteIfAble | pi/armFromPi.py:73-82 | the k-th stepper and the write log change as `Pulse` says |
| ArmFromPi.ArmReceiver.WriteToArduino | pi/armFromPi.py:43-68 | the state moves as `Write` says: a stepper search, a turn, then a pulse |
| ArmFromPi.ArmReceiver.ParseInput | pi/armFromPi.py:85-91 | executes the parsed commands in order, each at its own clock reading, and ends as the parse does |
| Server.WriteOne | pi/server.py:40-60 | stepper pin 2 fails with `AttributeError` before any write; a placeholder slot is an `AttributeError`; an index outside the list is an `IndexError`; otherwise one write of `val` to that board pin |
| Server.WriteOneOnTable | pi/server.py:15-31 | on the server's table, pins 3 to 13 (and their negative aliases) are written as given; 0, 1 fail; past the list is an `IndexError` (with pi/server.py:60) |
| Server.PieceWrite | pi/server.py:66 | a piece is written exactly when it parses and its write succeeds |
| Server.RunPieces | pi/server.py:65-66 | at most one write per piece |
| Server.RunPiecesFailSticks | pi/server.py:65-66 | the first failing piece ends the loop |
| Server.RunPiecesStep | pi/server.py:65-66 | one more piece after a clean prefix adds its write or its error |
| Server.Pairs | pi/server.py:60 | the (pin, val) pairs of the commands |
| Server.RunPiecesOfPieces | pi/server.py:64-66 | the pieces of servo commands are all written, in order |
| Server.RunJoined | pi/server.py:63-66 | a `;`-joined message of servo commands with no final `;` runs to completion |
| Server.RunTrailingSemicolon | pi/server.py:63-66 | a message ending in `;` writes every command, then fails on the empty last piece |
| Server.RunEmptyMessage | pi/server.py:63-66 | the empty message fails at once on `int('')` and writes nothing |
| Server.RunEncodedCommands | pi/server.py:63-66 | `pin:val;` text of servo commands writes every command, then fails on the empty last piece |
| Server.PiServer.constructor | pi/server.py:15-31 | two placeholders, then board pins 2 to 13 |
| Server.PiServer.WriteToArduino | pi/server.py:40-60 | at most one write, none on failure |
| Server.PiServer.HandlePiece | pi/server.py:66 | the write of one piece, or its error |
| Server.PiServer.ParseInput | pi/server.py:63-66 | the writes and the ending of the whole message |
| JoyItems.Update | surface/arm.py:26-41 | a button stores the state; a toggle flips between 0 and 1 on state 1 and ignores other states |
| JoyItems.TogglePresses | surface/stepper.py:37-39 | after `n` presses a toggle shows the parity of `n` |
| JoyItems.MakeButtons | surface/client.py:70-75 | toggles exactly at the listed indexes, all at 0 |
| JoyItems.MakeAxes | surface/arm.py:85-90 | listed axes start at one value and the others at another |
| SurfaceArm.FlipThruster | surface/arm.py:176-177 | the reflection of the value about the centre |
| SurfaceArm.FlipThrusterInvolution | surface/arm.py:176-177 | flipping twice gives the value back; the centre is fixed |
| SurfaceArm.PrecisionOnOff | surface/arm.py:117-120 | 1.0 with button 0 off, `ratio` with it on |
| SurfaceArm.HorizontalInBand | surface/arm.py:123-130 | a three-term sum in [-3, 3] keeps a horizontal value, flipped or not, within `radius*precision` of the centre |
| SurfaceArm.HorizontalsInBand | surface/arm.py:123-130 | all four horizontal mixes stay within `radius*precision` of the centre |
| SurfaceArm.VerticalInBand | surface/arm.py:137-138 | a height in [-1, 1] keeps a vertical within `radius` of the centre |
| SurfaceArm.Mix | surface/arm.py:123-141 | six values, and the two verticals carry the same one |
| SurfaceArm.MixInBand | surface/arm.py:123-141 | stick values in [-1, 1] keep the horizontals within `radius*precision` and the verticals within `radius` of the centre |
| SurfaceArm.DriveValues | surface/arm.py:109-141 | six values, and pins 8 and 9 carry the same one |
| SurfaceArm.DriveValuesInBand | surface/arm.py:109-141 | with axes in [-1, 1], every horizontal is within `radius*precision` of the centre and the verticals within `radius` |
| SurfaceArm.DriveValuesAtRest | surface/arm.py:109-138 | sticks at rest put every thruster at the centre |
| SurfaceArm.DriveCommands | surface/arm.py:109-141 | `KeyError` exactly when an axis 0-5 or button 0 is missing; otherwise pins 4 to 9 in order with the truncated values |
| SurfaceArm.ArmAxis | surface/arm.py:191-192 | both branches are the same, so the value is always `50*a` |
| SurfaceArm.ArmCommands | surface/arm.py:184-200 | `KeyError` exactly when a button 0-5 or axis 0-1 is missing; otherwise pins 10, 2, 3, 12, 13 with the servo at 180 or 20 |
| SurfaceArm.ArmCommandsInRange | surface/arm.py:188-195 | with arm axes in [-1, 1], pins 12 and 13 stay in [-50, 50] |
| SurfaceArm.ApplyEvent | surface/arm.py:148-163 | the shape is kept; `KeyError` exactly for a missing axis or button |
| SurfaceArm.AxisMotionOnly | surface/arm.py:149-150 | an axis motion changes that axis and nothing else |
| SurfaceArm.PressRelease | surface/arm.py:155-159 | press then release leaves a button at 0 and flips a toggle |
| SurfaceArm.Joystick.constructor | surface/arm.py:77-95 | toggles where listed; trigger axes at -1, others at 0; hat at (0, 0) |
| SurfaceArm.Joystick.GetRovInput | surface/arm.py:98-146 | the text of the joystick's commands, or `KeyError` (with surface/arm.py:184-200) |
| SurfaceArm.Joystick.DetectEvent | surface/arm.py:148-165 | the item update, then the message is rebuilt; either step's `KeyError` is raised |
| SurfaceArm.AllCommands | surface/arm.py:214-217 | succeeds exactly when every joystick's commands do |
| SurfaceArm.AllCommandsStep | surface/arm.py:214-217 | after a clean prefix, a failing joystick fails the list and a succeeding one appends its commands |
| SurfaceArm.JoysticksMessageRoundTrip | surface/arm.py:214-219 | the receiver executes exactly the joysticks' commands, in order (with pi/armFromPi.py:85-91) |
| SurfaceArm.States | surface/arm.py:216 | one state per joystick |
| SurfaceArm.Joysticks.constructor | surface/arm.py:204-205 | stores the joysticks |
| SurfaceArm.Joysticks.GetRovInput | surface/arm.py:214-219 | all texts concatenated, last character dropped, `&` appended |
| SurfaceStepper.StepperCommands | surface/stepper.py:96-107 | `KeyError` exactly when an axis 0-5 is missing; otherwise pins 1, 2, 3, 10 with the truncated formulas |
| SurfaceStepper.ClawBalance | surface/stepper.py:101-106 | equal triggers put the claw at the centre, and the claw stays within `radius` of it |
| SurfaceStepper.StepperMessagePieces | surface/stepper.py:109-112 | the message is the pieces joined by `;`; it splits back into them; each parses to its command |
| SurfaceStepper.StepperMessageOnServer | surface/stepper.py:104-112 | the strict receiver stops at the first piece with `AttributeError`, because pin 1 is a placeholder (with pi/server.py:15-31,63-66) |
| SurfaceStepper.StepperJoystick.constructor | surface/stepper.py:69-87 | toggles where listed; trigger axes at 0, others at -1 |
| SurfaceStepper.StepperJoystick.GetRovInput | surface/stepper.py:90-112 | the pieces joined by `;` with no final `;`, or `KeyError` |
| SurfaceClient.ButtonCommands | surface/client.py:82-83 | one `i:v` entry per button, in index order |
| SurfaceClient.AxisText | surface/client.py:76 | an axis still at its initial int 0 prints "0"; a moved one prints its float |
| SurfaceClient.AxisTexts | surface/client.py:86-87 | one text per axis value, in key order |
| SurfaceClient.RestedAxisPrintsDifferently | surface/client.py:76 | an axis moved back to 0.0 prints differently from one that never moved |
| SurfaceClient.AxisEntriesNoNewline | surface/client.py:86-87 | the axis part holds no newline |
| SurfaceClient.ClientMessageParts | surface/client.py:80-88 | the message holds exactly one newline, with the button entries before it and the axis entries after it |
| SurfaceClient.ClientJoystick.constructor | surface/client.py:69-77 | toggles where listed, every axis at the int 0, the hat at (0, 0) |
| SurfaceClient.ClientJoystick.AxisMotion | surface/client.py:93-94 | the axis takes the event's float; an unknown axis number is a `KeyError` with nothing changed |
| SurfaceClient.ClientJoystick.GetRovInput | surface/client.py:80-88 | the button entries, a newline, then each axis as "0" until it moves and as its float after |
| ClientTest.ItemUpdate | surface/clienttest.py:28-32 | a button records whether the state is 1; a toggle flips on 1 (with surface/clienttest.py:13-15) |
| ClientTest.TriggerValue | surface/clienttest.py:76-77 | a released trigger gives 0 and a full one the precision |
| ClientTest.AxisUpdate | surface/clienttest.py:51-55 | the axis number is compared with the stored first value |
| ClientTest.AxisUpdateMixesAxes | surface/clienttest.py:110-113 | from (0, 0), the first axis-0 motion fills the unused value and later ones drive the stick (with surface/clienttest.py:51-55) |
| ClientTest.AxisValueInRange | surface/clienttest.py:58-61 | a stick in [-1, 1] at precision in [0, 1] gives [35, 145] |
| ClientTest.VerticalsBalanced | surface/clienttest.py:128-131 | the verticals add up to 180, each within `55*precision` of 90 |
| ClientTest.TestCommands | surface/clienttest.py:117-134 | pins 4 to 13 in order; the left value is mirrored about 90; pins 9, 11, 12, 13 are 0 |
| ClientTest.TestJoystick.constructor | surface/clienttest.py:88-113 | toggles at keys 0 and 2, sticks at (0, 0), triggers at -1 (with surface/clienttest.py:198-213) |
| ClientTest.TestJoystick.ButtonDown | surface/clienttest.py:163-171 | buttons from 6 up are ignored; a negative one is a `KeyError` |
| ClientTest.TestJoystick.AxisMotion | surface/clienttest.py:148-153 | axes 0-1 go to the left stick, 2-3 to the right, 4 and 5 to the triggers; others are a `KeyError` |
| ClientTest.TestJoystick.GetRovInput | surface/clienttest.py:117-139 | the pieces joined by `;`; `AttributeError` if key 0 is not a toggle |
| DriveJoystick.KeyUpdate | surface/joystick.py:25-47 | a button stores the state; a toggle flips on a true state |
| DriveJoystick.HatUpdate | surface/joystick.py:70-73 | `up` takes the second value and `right` the first |
| DriveJoystick.HatRoundTrip | surface/joystick.py:70-77 | reading back a hat swaps the reported pair |
| DriveJoystick.HeldToggleFlipsEachPoll | surface/joystick.py:45-47 | a toggle held through `n` polls shows the parity of `n` (with surface/joystick.py:108-109) |
| DriveJoystick.Roll | surface/joystick.py:174-175 | roll is -0.5, 0 or 0.5, positive exactly for RB alone |
| DriveJoystick.VelocityOf | surface/joystick.py:168-175 | each field from its dead-zoned axis, and roll from the bumpers |
| DriveJoystick.CloseSide | surface/joystick.py:196-197 | one of 88, 92, 94, 98; 92 exactly with both bumpers up |
| DriveJoystick.Sample | surface/joystick.py:198-199 | one of -1, 0, 1 |
| DriveJoystick.CameraStep | surface/joystick.py:200 | the camera servo stays in [0, 180] and moves by `up/2` when that stays inside |
| DriveJoystick.CameraStaysInRange | surface/joystick.py:161-200 | from a start in [0, 180], the servo stays in [0, 180] over any hat readings, and never moves while the hat is centred |
| DriveJoystick.CloseMainInRange | surface/joystick.py:194-195 | trigger values in [-1, 1] keep the main claw in [84, 100] |
| DriveJoystick.ClawOf | surface/joystick.py:192-199 | every claw entry from its items |
| DriveJoystick.XBoxDriveController.constructor | surface/joystick.py:129-162 | axes at 0, toggles exactly at 2 and 3, hats at (0, 0), zero velocity, agnes factor 0.3, camera servo 90 (with surface/joystick.py:83-91) |
| DriveJoystick.XBoxDriveController.Update | surface/joystick.py:93-102 | an axis motion sets that axis; a button press/release updates that button with true/false; a hat motion updates that hat; other events change nothing; a bad index is an `IndexError` |
| DriveJoystick.XBoxDriveController.Poll | surface/joystick.py:104-111 | every item is updated with the device's reading |
| DriveJoystick.XBoxDriveController.GetVelocityVector | surface/joystick.py:164-177 | poll, then the vector is `VelocityOf` the polled items |
| DriveJoystick.XBoxDriveController.GetStatusFlags | surface/joystick.py:179-184 | the agnes factor moves by `0.002*up`; Y gives agnes mode and X gives auto depth |
| DriveJoystick.XBoxDriveController.GetClawVector | surface/joystick.py:187-202 | poll, then the claw entries and one camera step |
| DepthWindow.LastN | pi/depth-sensor.py:56-59 | the last `min(n, len)` readings |
| DepthWindow.PushKeepsLastNine | pi/depth-sensor.py:56-59 | a window of the last nine readings, pushed, is the last nine again |
| DepthWindow.DepthLoop.constructor | pi/mock_depth_sensor.py:42-43 | an empty list |
| DepthWindow.DepthLoop.Step | pi/depth-sensor.py:53-63 | append, drop the front at ten; at most nine readings, the newest last; the list is sent |
| DepthWindow.DepthLoop.Run | pi/mock_depth_sensor.py:45-55 | after a batch, the list is the last nine readings in arrival order, and one message per reading was sent |
| Launcher.PipelinePortRoundTrip | surface/xgui.py:28 | the port reads back from its pipeline string |
| Launcher.PipelineCommandInjective | surface/launch.py:38 | distinct ports give distinct pipelines |
| Launcher.GetQurlsOrExit | surface/xgui.py:49-81 | both endpoints valid gives `num_cameras` entries, entry i for port `lowest+i`; otherwise exit status 1 |
| Launcher.QurlPorts | surface/launch.py:52-80 | every entry's port is valid and no two entries are equal |
| Launcher.LoggerFunc | surface/xgui.py:159-179 | Critical/Fatal (and System, its alias) log as critical, Debug as debug, Info as info, Warning as warning |
| Launcher.LoggerFuncMonotone | surface/xgui.py:167-179 | more severe message types never log at a lower level |
| Launcher.GetSurpressedMessageHandler | surface/xgui.py:139-181 | the checked handler exactly when there is something to suppress |
| Launcher.HandlerDropsExactlyListed | surface/xgui.py:149-157 | exactly the listed messages are dropped; others are logged at their level |
| Launcher.GetMessagesToSurpress | surface/xgui.py:183-194 | empty when shown; otherwise the stripped lines |
| Launcher.StripAll | surface/xgui.py:194 | each line stripped |
| Launcher.GetMessagesToSurpressIdempotent | surface/xgui.py:194 | the list is already stripped |
| Launcher.GetSurfaceCentralIfCan | surface/launch.py:82-104 | no name gives the default widget; a bound name gives its binding; any other name gives `False` |
| Launcher.XguiRefusesWidgetClass | surface/xgui.py:96-107 | as written, naming the default widget class is refused |
| Launcher.GetSurfaceCentralIfCanXguiCorrected | surface/xgui.py:83-114 | corrected: a name is chosen exactly when it binds a widget class |
| Launcher.XguiCorrectedAgreesWithLaunch | surface/xgui.py:83-114 | corrected, the two lookups agree on modules of widget classes (with surface/launch.py:82-104) |
| Launcher.XguiMainStart | surface/xgui.py:196-205 | as written: starts exactly with valid ports and a lookup that `isinstance` accepts; otherwise exit status 1 |
| Launcher.XguiMainRefusesNamedClass | surface/xgui.py:196-205 | as written, naming any widget class exits with status 1 |
| Launcher.XguiMainStartCorrected | surface/xgui.py:196-205 | corrected: starts exactly with valid ports and a named widget class or no name; otherwise exit status 1 |
| Launcher.XguiCorrectionOnlyFixesClasses | surface/xgui.py:96-107 | the correction changes `main` exactly for a named widget class with valid ports |
| Launcher.XguiCorrectedStartsDefaultByName | surface/xgui.py:196-205 | corrected: naming the default widget class starts the window when the ports are valid |
| Launcher.MainStart | surface/launch.py:129-138 | starts exactly with valid ports and a found widget |
| Launcher.MainUnknownWidgetNameError | surface/launch.py:135-138 | as written, an unknown widget name ends in `NameError` |
| Launcher.MainStartCorrected | surface/launch.py:129-138 | corrected: every failure exits with status 1 |
| Launcher.MainCorrectedOnlyFixesLookup | surface/launch.py:135-138 | the correction changes only the failed-lookup case |

## Left out

- Sockets, asyncio tasks and locks, the module-level connect/accept loops, and `print` calls: I/O and scheduling.
- The `run` loops of `Servo`, `Thruster`, `Stepper` and `SimThruster`, and their sleeps, are infinite I/O loops. `LinActuator.run` is modelled by one pass (`Hardware.LinActuator.RunOnce`).
- `time_ms` and `time.time()` are clock readings: they are parameters.
- ArmFromPi.ArmReceiver.WriteIfAble: the two `time.time()` calls of one `writeIfAble` (the test and the stored time) are taken as one reading. The model stores the reading it tested against.
- Decimal.ParseInt, Text.Strip: ASCII only. Python's `int()` also accepts underscores between digits ("1_0") and non-ASCII decimal digits, and `str.strip()` also removes non-ASCII white space (`\x85`, `\xa0`, `\u1680`, `\u2000`-`\u200a`, `\u2028`, `\u2029`, `\u202f`, `\u205f`, `\u3000`). The model rejects or keeps these. The messages the model's senders write contain none of them.
- `euler_from_quaternion` and `to_dict`'s rounding to three decimals: floating point.
- Reals are mathematical reals, not IEEE doubles.
- Hardware.Stepper.Reverse: `reverse` writes the pin object itself to the direction pin; the model records only that one write happens.
- `utils.deadzone_retrict` is not part of this model; it is a function parameter. So is Python's `str` of a float, used by `client.py`.
- DriveJoystick.XBoxDriveController.constructor: requires at least 6 axes, 10 buttons and 1 hat. With fewer, the source raises `IndexError` while building its name dictionaries.
- DriveJoystick.XBoxDriveController.GetVelocityVector: returns the vector as a value. The source returns its own `velocity_vec` object, which a caller could alias.
- `Controller.get_joy_val`, `update_sensor_reading` and `setup`: they only read or store values, or start pygame.
- The pygame event loops (`Joysticks.detect_event`, the `detect_event` loops of `stepper.py` and `client.py`) are left out. Their per-event body is the same dispatch as `SurfaceArm.ApplyEvent`; client.py's axis event is `SurfaceClient.ClientJoystick.AxisMotion`.
- `clienttest.py`'s `hat.update` assigns only local names, so a hat event changes nothing; `button.calculate_values` is never called. Neither is modelled.
- ClientTest.ItemUpdate: `state is 1` is modelled as `state == 1`. pygame passes the literal 1, for which the two agree.
- `get_cmdline_args` (argparse) and `QApplication`/`SurfaceWindow` setup are left out. So is the `TypeError` path of widget construction: it needs the widget classes, which are not part of this model.
- `class_for_name`'s import is abstracted as a map from names to bindings.
- The JSON text of the depth message: the model records the list that is sent.
- `ROVState`'s `actuators` and `sensors` dictionaries: the modelled code never reads them.
- `ROVState`'s thrusters are modelled by their kind and active range (`RovState.ThrusterActuator`), not as the `Thruster` objects themselves: the log `sent` records the value each accepted `set_val` stores, not which object holds it.
- `clienttest.py` at the repository root is a socket script with no logic to model.

## Findings

| source | as written | input that shows it | evidently intended | confidence | as-written member | corrected member |
|---|---|---|---|---|---|---|
| pi/rov_state.py:57-58 | `linear_map(value, -3, -3, -1, 1)` divides by `in_max - in_min = 0` | any velocity, e.g. the zero vector | normalise over (-3, 3) into [-1, 1] | high (not executed) | RovState.MixAlwaysFails | RovState.NormalizedMixInUnitRange |
| pi/utils.py:40-41 | `asdict(self)[key] = value` writes a fresh copy, so `output_velocity[axis] = ...` at pi/rov_state.py:76 changes nothing | any outputs, e.g. all 1.0: the vector stays zero | set the field | high (not executed) | RovState.StoreOutputsAsWritten | RovState.StoreOutputs |
| pi/rov_state.py:62-84 | the loop always raises before any `set_val` or the `last_time` update | any state with a non-zero `dt` | each thruster set in turn, and `last_time` refreshed once all six accept their values | high (not executed) | RovState.ROVState.ControlLoop | RovState.ROVState.ControlLoopCorrected |
| surface/launch.py:135-138 | the error message uses `widget_name`, which is local to `get_surface_central_if_can` | `--widget NoSuchWidget` with valid ports | log the name and exit with status 1 | high (not executed) | Launcher.MainUnknownWidgetNameError | Launcher.MainStartCorrected |
| surface/xgui.py:101 | `isinstance(maybe_cls, QWidget)` is false for a class, so every named widget is refused | `--widget SurfaceCentralWidget` (the legal-name case of surface/tests/test_launch.py:25-28) | `issubclass`: accept widget classes | medium (not executed) | Launcher.XguiRefusesWidgetClass | Launcher.GetSurfaceCentralIfCanXguiCorrected |
