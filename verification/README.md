# Swerve robot drivetrain, balance command and superstructure — a Dafny model

This project models the control logic of a 2023 FRC swerve-drive robot:

- the **drive subsystem** (`DriveSubsystem`): the speed gate that picks the
  limited or the full speed profile from the driver's request and the
  superstructure's altitude and extension, the polar slew-rate limiter on the
  translation, the rotation limiter, the pass-through path without rate
  limiting, the conversion to physical units, the field-relative frame change,
  kinematics and desaturation, and `stop`, `turn`, `lock` and
  `setModuleStates`;
- the **charge-station balance command** (`AutoDriveToBalance`): the
  `tippedOver` / `timeToSlowDown` / `isBalanced` flags driven by the gyro's
  pitch, the drive call each cycle makes, `end` and `isFinished`;
- the **elevator** (`Elevator`) and the **arm** (`Arm`) subsystems: motor
  outputs, encoder positions, the encoder zeroing at the limit switches done
  every cycle, and the travel-position flag.

Files:

- `wpilib.dfy` (module `WpiLib`): the library calls the robot code makes
  (trigonometry, the SwerveUtils angle helpers, WPILib's SlewRateLimiter,
  kinematics and desaturation) as function-valued fields of a `Library`
  value. Every result holds whatever those functions compute, unless a lemma
  states a hypothesis about them (`WellFormed`, `ClampsLikeWpi`).
- `latches.dfy` (module `Latches`): the set-only latch step, its fold over
  control cycles, and the closed form of that fold.
- `encoders.dfy` (module `Encoders`): an encoder moved by its motor and zeroed
  at its limit switch, the fold of that step over control cycles, and closed
  forms of that fold.
- `drivetrain.dfy` (module `Drivetrain`): the pure specification of one
  `drive` call (`DriveCycle`), lemmas about one call and about runs of calls,
  and the class `DriveSubsystem` whose methods update its fields as the source
  does and are proved to agree with `DriveCycle`.
- `balance.dfy` (module `BalanceCommand`): the flag update as a function, its
  properties over runs of cycles, and the class `AutoDriveToBalance`.
- `elevator.dfy` (module `ElevatorSubsystem`) and `arm.dfy` (module
  `ArmSubsystem`): the two mechanism classes.

Sensor readings, the clock and limit-switch states are parameters: a
`RobotInputs` value for the drivetrain and the balance command (time in
microseconds, gyro angle and pitch, whether the robot is in autonomous, and
the positions reported by the separate Altitude and Extension subsystems, which
are not part of this model), and switch states for the mechanisms. Motor outputs are fields holding the last value set.

In `drive`, the rotation is multiplied by the chosen angular maximum during
the speed gate and then by `kMaxAngularSpeed` again when converted to
physical units. The model keeps this as written (`DeliveredScaling` states it).

## Model

| member | source | states |
|---|---|---|
| WpiLib.Degrees | robot/SwerveRobot/src/main/java/frc/robot/subsystems/DriveSubsystem.java:288-293 | 45 degrees is a quarter of pi radians and -45 degrees its negation |
| WpiLib.LimiterMovesTowardTarget | robot/SwerveRobot/src/main/java/frc/robot/subsystems/DriveSubsystem.java:231-250 | a limiter that clamps its step as WPILib documents, called no earlier than its last call, keeps its rate, records the time, and moves its output towards the requested input without overshooting |
| Latches.Latch | robot/SwerveRobot/src/main/java/frc/robot/subsystems/Elevator.java:45-49 | one cycle of a set-only flag: set if it was set or the trigger fired, never cleared |
| Latches.LatchedAfterIff | robot/SwerveRobot/src/main/java/frc/robot/commands/AutoDriveToBalance.java:37 | after any run of cycles a set-only latch holds exactly when it held at the start or some cycle's trigger fired |
| Encoders.ZeroIfPressed | robot/SwerveRobot/src/main/java/frc/robot/subsystems/Arm.java:100-104 | an encoder reads zero after a cycle with its limit switch pressed and is unchanged otherwise |
| Encoders.EncoderStep | robot/SwerveRobot/src/main/java/frc/robot/subsystems/Arm.java:100-104 | in one cycle the encoder moves with its motor and then reads zero if its limit switch is pressed, or its moved position otherwise |
| Encoders.EncoderAfterConcat | robot/SwerveRobot/src/main/java/frc/robot/subsystems/Arm.java:66-71 | running two stretches of periodic cycles one after the other is running their concatenation |
| Encoders.EncoderNeverZeroed | robot/SwerveRobot/src/main/java/frc/robot/subsystems/Elevator.java:142-146 | while its limit switch is never pressed, the encoder reads its starting position plus all the motion of its motor |
| Encoders.EncoderSinceLastPress | robot/SwerveRobot/src/main/java/frc/robot/subsystems/Elevator.java:91-97 | the encoder reads exactly the motion made since the last cycle whose limit switch was pressed, whatever it read before, and zero right after that cycle |
| Drivetrain.IsWithinSafeDrivingLimits | robot/SwerveRobot/src/main/java/frc/robot/subsystems/DriveSubsystem.java:162-170 | always safe in autonomous; in teleop safe exactly when the altitude is strictly above its minimum and the extension strictly below its maximum |
| Drivetrain.ScaleToProfile | robot/SwerveRobot/src/main/java/frc/robot/subsystems/DriveSubsystem.java:200-206 | limited speed and angular maxima when the caller asks for a limit or the superstructure is unsafe, full maxima otherwise; autonomous without a requested limit always gets the full profile |
| Drivetrain.DirectionSlewRate | robot/SwerveRobot/src/main/java/frc/robot/subsystems/DriveSubsystem.java:218-223 | the direction slew rate is non-negative, is 500 when the robot is not translating, and otherwise times the absolute magnitude equals the absolute configured direction rate |
| Drivetrain.PolarStep | robot/SwerveRobot/src/main/java/frc/robot/subsystems/DriveSubsystem.java:227-246 | specification of the polar limiter on the translation; no contract of its own; properties in PolarStepBranches, NearReversalDecelerates and MagnitudeStaysBounded |
| Drivetrain.RateLimitedStep | robot/SwerveRobot/src/main/java/frc/robot/subsystems/DriveSubsystem.java:211-250 | specification of the rate-limited block; no contract of its own; properties in RateLimitedCommandIsPolar, and DriveSubsystem.RateLimit is proved against it |
| Drivetrain.SlewUpdate | robot/SwerveRobot/src/main/java/frc/robot/subsystems/DriveSubsystem.java:211-256 | specification of the slew update of one drive call on both paths; no contract of its own; properties in BypassPassesInputsThrough, RateLimitedCommandIsPolar and BypassRunKeepsTranslation |
| Drivetrain.DriveCycle | robot/SwerveRobot/src/main/java/frc/robot/subsystems/DriveSubsystem.java:187-279 | specification of one drive call; no contract of its own; properties in DeliveredScaling, StopCommandsNoMotion and TurnCommandsNoTranslation, and DriveSubsystem.Drive, Stop and Turn are proved against it |
| Drivetrain.XFormation | robot/SwerveRobot/src/main/java/frc/robot/subsystems/DriveSubsystem.java:288-293 | lock targets: every wheel at zero speed, front-left and rear-right at pi/4, front-right and rear-left at -pi/4 |
| Drivetrain.BypassPassesInputsThrough | robot/SwerveRobot/src/main/java/frc/robot/subsystems/DriveSubsystem.java:252-256 | without rate limiting the raw forward and sideways inputs are commanded, the rotation is the scaled input, and the translation state, time stamp and limiters are untouched |
| Drivetrain.PolarStepBranches | robot/SwerveRobot/src/main/java/frc/robot/subsystems/DriveSubsystem.java:227-246 | the four branches of the polar limiter: gentle steer ramps towards the input magnitude, medium steer slows to zero, near reversal while moving keeps the direction and slows, near reversal when stopped flips the direction and ramps; the time stamp is always updated |
| Drivetrain.RateLimitedCommandIsPolar | robot/SwerveRobot/src/main/java/frc/robot/subsystems/DriveSubsystem.java:211-251 | on the rate-limited path the commanded translation is the polar state in Cartesian form, the rotation is the rotation limiter's output, and the time stamp is the current time |
| Drivetrain.DeliveredScaling | robot/SwerveRobot/src/main/java/frc/robot/subsystems/DriveSubsystem.java:259-271 | delivered translation is the commanded translation times the profile speed; delivered rotation is the current rotation times kMaxAngularSpeed, so a pass-through rotation is scaled twice; robot-relative drives deliver the chassis speeds unchanged |
| Drivetrain.StopCommandsNoMotion | robot/SwerveRobot/src/main/java/frc/robot/subsystems/DriveSubsystem.java:172-174 | stop delivers zero chassis speeds, sets the current rotation to zero and leaves the translation state alone |
| Drivetrain.TurnCommandsNoTranslation | robot/SwerveRobot/src/main/java/frc/robot/subsystems/DriveSubsystem.java:281-283 | turn delivers no translation and sets the rotation to the scaled speed |
| Drivetrain.NearReversalDecelerates | robot/SwerveRobot/src/main/java/frc/robot/subsystems/DriveSubsystem.java:236-240 | near reversal while moving, with a limiter that clamps its step as WPILib documents, keeps the direction and strictly reduces the magnitude without passing zero |
| Drivetrain.BypassRunKeepsTranslation | robot/SwerveRobot/src/main/java/frc/robot/subsystems/DriveSubsystem.java:252-256 | any number of drive calls without rate limiting leave direction, magnitude, time stamp and both limiters unchanged |
| Drivetrain.MagnitudeStaysBounded | robot/SwerveRobot/src/main/java/frc/robot/subsystems/DriveSubsystem.java:211-251 | with a magnitude limiter that behaves as WPILib documents, a non-negative rate and a clock that never runs backwards, the translation magnitude stays between zero and any bound on the requested magnitudes over any run of drive calls |
| Drivetrain.DriveSubsystem.constructor | robot/SwerveRobot/src/main/java/frc/robot/subsystems/DriveSubsystem.java:64-70 | zero rotation, direction and magnitude, limiters with the configured rates created at the construction time, and the time stamp set to that time |
| Drivetrain.DriveSubsystem.CalculateMagnitude | robot/SwerveRobot/src/main/java/frc/robot/subsystems/DriveSubsystem.java:231-244 | the magnitude becomes the magnitude limiter's new output; nothing else but the limiter changes |
| Drivetrain.DriveSubsystem.RateLimit | robot/SwerveRobot/src/main/java/frc/robot/subsystems/DriveSubsystem.java:211-251 | the in-place polar limiter leaves the slew state equal to the pure rate-limited step and returns that state in Cartesian form |
| Drivetrain.DriveSubsystem.Drive | robot/SwerveRobot/src/main/java/frc/robot/subsystems/DriveSubsystem.java:187-279 | the new slew state and module targets are those of the pure drive-cycle specification |
| Drivetrain.DriveSubsystem.Stop | robot/SwerveRobot/src/main/java/frc/robot/subsystems/DriveSubsystem.java:172-174 | the current rotation becomes zero, the rest of the slew state is unchanged, and the module targets are those of the all-zero drive call |
| Drivetrain.DriveSubsystem.Turn | robot/SwerveRobot/src/main/java/frc/robot/subsystems/DriveSubsystem.java:281-283 | only the rotation changes in the slew state, to the speed scaled by the selected angular maximum |
| Drivetrain.DriveSubsystem.Lock | robot/SwerveRobot/src/main/java/frc/robot/subsystems/DriveSubsystem.java:288-293 | the module targets become the X formation and the slew state is unchanged |
| Drivetrain.DriveSubsystem.SetModuleStates | robot/SwerveRobot/src/main/java/frc/robot/subsystems/DriveSubsystem.java:300-307 | the caller's array holds the desaturated states afterwards and the four modules target its first four entries |
| BalanceCommand.BalanceStep | robot/SwerveRobot/src/main/java/frc/robot/commands/AutoDriveToBalance.java:35-39 | one execute: tippedOver holds exactly when the pitch is below -10, timeToSlowDown is the set-only latch of that tip, and isBalanced holds exactly when latched and the pitch is in [-10, -0.5] |
| BalanceCommand.BalanceDriveCall | robot/SwerveRobot/src/main/java/frc/robot/commands/AutoDriveToBalance.java:41-48 | the drive call: reduced speed once latched, forwards while tipped and backwards otherwise, no sideways motion or rotation, field relative, no speed limit, no rate limiting |
| BalanceCommand.Tips | robot/SwerveRobot/src/main/java/frc/robot/commands/AutoDriveToBalance.java:36 | a cycle tips exactly when its pitch is below -10 degrees |
| BalanceCommand.SlowDownIsTipLatch | robot/SwerveRobot/src/main/java/frc/robot/commands/AutoDriveToBalance.java:36-37 | timeToSlowDown over any run of cycles is the set-only latch of the cycles' tips |
| BalanceCommand.SlowDownIffTipped | robot/SwerveRobot/src/main/java/frc/robot/commands/AutoDriveToBalance.java:37 | timeToSlowDown holds exactly when it held before or some cycle's pitch was below -10 degrees |
| BalanceCommand.LastCycleDecides | robot/SwerveRobot/src/main/java/frc/robot/commands/AutoDriveToBalance.java:36-39 | tippedOver depends only on the last pitch; isBalanced holds exactly when latched and the last pitch is in [-10, -0.5] |
| BalanceCommand.BalancedOnlyAfterEarlierTip | robot/SwerveRobot/src/main/java/frc/robot/commands/AutoDriveToBalance.java:34-39 | from the start, the command is balanced exactly when the last pitch is in [-10, -0.5] and an earlier cycle tipped |
| BalanceCommand.BalanceRunAppend | robot/SwerveRobot/src/main/java/frc/robot/commands/AutoDriveToBalance.java:34-39 | one more execute at the end of a run is one more flag update |
| BalanceCommand.ChargeStationScenario | robot/SwerveRobot/src/main/java/frc/robot/commands/AutoDriveToBalance.java:34-39 | for pitches 0, 0, -15, -15, -8, -3 the latch first sets at the third reading and the command first reports balanced at the fifth |
| BalanceCommand.BalanceDriveIsPassThrough | robot/SwerveRobot/src/main/java/frc/robot/commands/AutoDriveToBalance.java:41-48 | the balance drive call bypasses the limiter, commands no rotation and no sideways speed, and its forward speed is the travel direction times the gated speed |
| BalanceCommand.AutoDriveToBalance.constructor | robot/SwerveRobot/src/main/java/frc/robot/commands/AutoDriveToBalance.java:16-26 | all three flags start false and the maximum speed is the on-station maximum |
| BalanceCommand.AutoDriveToBalance.Execute | robot/SwerveRobot/src/main/java/frc/robot/commands/AutoDriveToBalance.java:34-53 | the flags become one flag update of the old flags with the current pitch, and the drivetrain does exactly the drive call those flags call for |
| BalanceCommand.AutoDriveToBalance.End | robot/SwerveRobot/src/main/java/frc/robot/commands/AutoDriveToBalance.java:57-59 | the drivetrain is stopped whether or not the command was interrupted |
| BalanceCommand.AutoDriveToBalance.IsFinished | robot/SwerveRobot/src/main/java/frc/robot/commands/AutoDriveToBalance.java:63-65 | finished exactly when balanced |
| ElevatorSubsystem.TravelTriggers | robot/SwerveRobot/src/main/java/frc/robot/subsystems/Elevator.java:45-49 | a travel-position check fires exactly when the elevator is at the top and the arm fully retracted |
| ElevatorSubsystem.TravelPositionIffBothPressed | robot/SwerveRobot/src/main/java/frc/robot/subsystems/Elevator.java:38-49 | after any run of checks the travel flag holds exactly when it held before or some check saw both switches pressed together; it is never cleared |
| ElevatorSubsystem.Elevator.constructor | robot/SwerveRobot/src/main/java/frc/robot/subsystems/Elevator.java:38 | the travel flag starts false |
| ElevatorSubsystem.Elevator.TravelPosition | robot/SwerveRobot/src/main/java/frc/robot/subsystems/Elevator.java:41-43 | returns the travel flag |
| ElevatorSubsystem.Elevator.ElevatorIsInTravelPosition | robot/SwerveRobot/src/main/java/frc/robot/subsystems/Elevator.java:45-49 | sets the travel flag when both switches are pressed, never clears it, changes nothing else |
| ElevatorSubsystem.Elevator.Periodic | robot/SwerveRobot/src/main/java/frc/robot/subsystems/Elevator.java:91-97 | zeroes the arm encoder if the retraction switch is pressed and the elevator encoder if the top switch is pressed; nothing else changes |
| ElevatorSubsystem.Elevator.Reset | robot/SwerveRobot/src/main/java/frc/robot/subsystems/Elevator.java:100-103 | both encoders read zero; nothing else changes |
| ElevatorSubsystem.Elevator.ExtendElevatorArm | robot/SwerveRobot/src/main/java/frc/robot/subsystems/Elevator.java:107-109 | the arm output is the arm speed |
| ElevatorSubsystem.Elevator.RetractElevatorArm | robot/SwerveRobot/src/main/java/frc/robot/subsystems/Elevator.java:112-114 | the arm output is the negated arm speed |
| ElevatorSubsystem.Elevator.StopArm | robot/SwerveRobot/src/main/java/frc/robot/subsystems/Elevator.java:117-119 | the arm output is zero |
| ElevatorSubsystem.Elevator.ResetArmEncoderAtRetractionLimit | robot/SwerveRobot/src/main/java/frc/robot/subsystems/Elevator.java:131-135 | the arm encoder reads zero if the retraction switch is pressed and is unchanged otherwise |
| ElevatorSubsystem.Elevator.ResetElevatorEncoderAtTopLimit | robot/SwerveRobot/src/main/java/frc/robot/subsystems/Elevator.java:142-146 | the elevator encoder reads zero if the top switch is pressed and is unchanged otherwise |
| ElevatorSubsystem.Elevator.RaiseElevator | robot/SwerveRobot/src/main/java/frc/robot/subsystems/Elevator.java:150-152 | the elevator output is the elevator speed |
| ElevatorSubsystem.Elevator.LowerElevator | robot/SwerveRobot/src/main/java/frc/robot/subsystems/Elevator.java:155-157 | the elevator output is the negated elevator speed |
| ElevatorSubsystem.Elevator.StopElevator | robot/SwerveRobot/src/main/java/frc/robot/subsystems/Elevator.java:160-162 | the elevator output is the configured stop speed, not necessarily zero |
| ElevatorSubsystem.Elevator.Stop | robot/SwerveRobot/src/main/java/frc/robot/subsystems/Elevator.java:170-173 | the arm output is zero and the elevator output the stop speed |
| ElevatorSubsystem.Elevator.GetCurrentAltitude | robot/SwerveRobot/src/main/java/frc/robot/subsystems/Elevator.java:176-178 | the altitude is the elevator encoder's position |
| ElevatorSubsystem.Elevator.Maintain | robot/SwerveRobot/src/main/java/frc/robot/subsystems/Elevator.java:181-183 | the elevator output is exactly the given value |
| ArmSubsystem.Arm.constructor | robot/SwerveRobot/src/main/java/frc/robot/subsystems/Arm.java:25 | the encoder starts at whatever position the motor controller reports and no output has been set |
| ArmSubsystem.Arm.ArmIsInTravelPosition | robot/SwerveRobot/src/main/java/frc/robot/subsystems/Arm.java:31-33 | in travel position exactly when the retraction switch is pressed |
| ArmSubsystem.Arm.Periodic | robot/SwerveRobot/src/main/java/frc/robot/subsystems/Arm.java:66-71 | zeroes the encoder if the retraction switch is pressed; the output is unchanged |
| ArmSubsystem.Arm.Reset | robot/SwerveRobot/src/main/java/frc/robot/subsystems/Arm.java:74-76 | the encoder reads zero |
| ArmSubsystem.Arm.ExtendElevatorArm | robot/SwerveRobot/src/main/java/frc/robot/subsystems/Arm.java:80-82 | the output is the arm speed |
| ArmSubsystem.Arm.RetractElevatorArm | robot/SwerveRobot/src/main/java/frc/robot/subsystems/Arm.java:85-87 | the output is the negated arm speed |
| ArmSubsystem.Arm.StopArm | robot/SwerveRobot/src/main/java/frc/robot/subsystems/Arm.java:90-92 | the output is zero |
| ArmSubsystem.Arm.ResetArmEncoderAtRetractionLimit | robot/SwerveRobot/src/main/java/frc/robot/subsystems/Arm.java:100-104 | the encoder reads zero if the retraction switch is pressed and is unchanged otherwise |
| ArmSubsystem.Arm.GetCurrentArmPosition | robot/SwerveRobot/src/main/java/frc/robot/subsystems/Arm.java:112-114 | the position is the encoder's position |
| ArmSubsystem.Arm.SetArm | robot/SwerveRobot/src/main/java/frc/robot/subsystems/Arm.java:117-120 | the output is the given speed times the arm's maximum speed |

## Left out

- Odometry (`periodic`, `resetOdometry`, `getPose`) in DriveSubsystem.java: `periodic` and `resetOdometry` feed the odometry library from the module positions and the gyro, and `getPose` reads the pose it estimates. Nothing in the modelled code reads the pose.
- `resetPose` and `zeroHeading` reset the gyro, which changes the heading `drive` reads for the field-relative frame change. The gyro angle is an input in `RobotInputs`, so a reset shows up only as the next angle read.
- `resetEncoders`, `calibrate`, `getHeading`, `getTurnRate`, `getMatchTimeRemaining`, `getPitch`: pass-through calls to the motor controllers, the gyro and the driver station. The gyro angle and pitch are inputs in `RobotInputs`.
- Dashboard logging (`log`, `logSwerveStates`, the `SmartDashboard` calls in `execute` and `setArm`): output only.
- Hardware configuration in the constructors (idle modes, current limits, ramp rates, limit-switch polarity, `burnFlash`), and the swerve modules' own control loops. The module objects are modelled only by the target state last sent to each.
- The library functions (trigonometry, SwerveUtils, SlewRateLimiter, kinematics, desaturation) are uninterpreted. Results that need their behaviour state it as a hypothesis on `Library`.
- Floating point: every quantity is an exact real, so rounding in the scaling and trigonometry is not modelled.
- The magnitude and rotation limiters read the clock themselves. The model gives them the same time `drive` reads for its own time stamp in that call.
- The values in the robot's constants classes are parameters (`DriveConstants`, `AutoConstants`, `ElevatorConstants`, `ArmConstants`). Literals written in the subsystem code are kept as written.
- The motor controllers clamp a set output to [-1, 1]. The model records the value passed to `set`.
- `AutoDriveToBalance.initialize` is empty.
- `isArmRetractionLimitHit` and `isElevatorTopLimitHit` only read a switch. The switch states are inputs to the methods that use them.
- The motors turning the encoders between cycles: the mechanism classes change an encoder field only through their own methods. The effect of the motor on its encoder is the `move` of each cycle in `Encoders.EncoderAfter`, an input of that fold.
- The initial module targets of the drive subsystem: no target is sent at construction, so they start at an arbitrary value.
- Drivetrain.DriveSubsystem.SetModuleStates: requires at least four entries in the array. The source indexes entries 0 to 3 and would fail on a shorter array.
- Command scheduling, the commands and command groups that call these subsystems, and trajectory following are not part of this model.
