# Swerve module control core, modelled in Dafny

This project models the per-wheel logic of a four-wheel swerve drivetrain. It covers the robot code's `SwerveModule` class:

- **Angle scoping.** `placeInAppropriate0To360Scope` moves a target angle by whole turns until it lies within half a turn of a reference angle.
- **State optimizer.** `optimize` reverses the wheel (negated speed, target turned by half a turn) instead of steering it more than a quarter turn.
- **Heading read-outs.** `getIntegratedAngle` reduces the steering encoder position into one turn. `getCanCoderAngle` turns the absolute CANcoder reading into a calibrated angle.
- **Per-cycle command.** `setDesiredStateClosedLoop` applies a dead band, optimizes, commands the steering motor and picks the autonomous or teleop drive law. `stop`, `resetEncoders`, `resetDistance` and `initRotationOffset` complete the module.

Angles are reals in radians. `PI` is the decimal Java prints for `Math.PI` (3.141592653589793), and `TWO_PI` is twice that. "Same heading" means two angles differ by a whole number of turns; the model states it as the existence of an integer witness.

Files:

- `angles.dfy` (module `Angles`): Java's `%` on doubles (`JavaRem`, with truncation toward zero), the bracket and the two loops as a closed form (`BracketOf`, `Unwound`, `Scope`), and the method `PlaceInAppropriate0To360Scope`. The method keeps the source's two `while` loops and is proved equal to `Scope`.
- `optimizer.dfy` (module `StateOptimizer`): `ModuleState` (a `SwerveModuleState`) and `Optimize`.
- `heading.dfy` (module `HeadingEstimator`): `IntegratedAngle` and `CanCoderAngle`.
- `swerve_module.dfy` (module `SwerveDrive`): the class `SwerveModule`, whose fields are the motor commands, encoder positions and gains.
  - The Java `static` fields (`angularSetPoint`, `velolictySetpoint`, `driveOutput`, ...) are fields of a `SharedSetpoints` object that each module holds a reference to. Modules built on one `SharedSetpoints` overwrite each other's setpoints, as the four modules of the robot do (`CommandInTurn`).
  - The library controllers are function-valued constants of the module, left uninterpreted. This covers the steering PID, the autonomous feedforward, and the fresh proportional controller and feedforward of the teleop loop.
  - `RobotState.isAutonomous()` is the `isAutonomous` parameter.

Behaviour of the code worth knowing:

- The scoped angle lies in the **closed** interval `[ref - π, ref + π]`. Both ends are reachable. When the reference is an odd multiple of π, which end a heading half a turn away lands on depends on the side it starts from (`ScopeBoundaryDependsOnSide`). Otherwise the reference alone determines the end (`ScopeBoundaryFixedByReference`).
- `getCanCoderAngle` is **not** reduced into one turn. Java precedence applies `%` to the offset alone. `SeededHeading` proves this is harmless for the integrated heading after seeding.
- The setpoint fields are shared between modules. After a cycle, the angular and velocity setpoints are those of the last module commanded outside the dead band; a module inside the dead band writes none of them. The drive-law fields (`DrivePIDOutput`, `feedForwardOutputVoltage`, `driveOutput`, `currentDriveVelocity`) are written only in teleop, so in autonomous they keep the last teleop values.
- The optimizer uses a strict `>` at a quarter turn: a target exactly π/2 away is not reversed (`OptimizeFlipsExactly`).

## Model

| member | source | states |
|---|---|---|
| `Angles.JavaRem` | src/main/java/frc/robot/subsystems/SwerveModule.java:199 | Java's `x % m`: lies strictly between -m and m, has the sign of x, and differs from x by a whole multiple of m |
| `Angles.BracketOf` | src/main/java/frc/robot/subsystems/SwerveModule.java:199-206 | both branches give `lower <= ref <= upper`, `upper - lower == 2π`, with `lower` a whole number of turns |
| `Angles.Unwound` | src/main/java/frc/robot/subsystems/SwerveModule.java:207-212 | after the two loops the angle lies in the bracket, has the same heading as the input, and is unchanged if it started in the bracket |
| `Angles.Scope` | src/main/java/frc/robot/subsystems/SwerveModule.java:196-219 | the result has the same heading as the candidate (only whole turns added or removed), lies in `[ref - π, ref + π]`, and is a fixed point of the scoping |
| `Angles.LoopsReachUnwound` | src/main/java/frc/robot/subsystems/SwerveModule.java:207-212 | once both loops stop, the turns they added and removed give exactly the closed form `Unwound` |
| `Angles.PlaceInAppropriate0To360Scope` | src/main/java/frc/robot/subsystems/SwerveModule.java:196-219 | the two terminating `while` loops and the final ±2π correction compute `Scope(scopeReference, newAngle)` |
| `Angles.ScopeFixed` | src/main/java/frc/robot/subsystems/SwerveModule.java:207-217 | an angle in the bracket within half a turn of the reference, or strictly within half a turn, is returned unchanged |
| `Angles.ScopeIdempotent` | src/main/java/frc/robot/subsystems/SwerveModule.java:196-219 | scoping twice against the same reference equals scoping once |
| `Angles.ScopeSelf` | src/main/java/frc/robot/subsystems/SwerveModule.java:281-282 | scoping an angle against itself returns it, so re-scoping the setpoint is a no-op |
| `Angles.ScopeNearest` | src/main/java/frc/robot/subsystems/SwerveModule.java:213-217 | no angle with the same heading is nearer the reference than the scoped one |
| `Angles.ScopeBoundaryDependsOnSide` | src/main/java/frc/robot/subsystems/SwerveModule.java:207-217 | with reference π, -2π scopes to 0 = ref - π while 4π scopes to 2π = ref + π: both ends of the interval occur |
| `Angles.ScopeBoundaryFixedByReference` | src/main/java/frc/robot/subsystems/SwerveModule.java:207-217 | with reference 0, both -π (from below) and 3π (from above) scope to π: the reference alone fixes the end |
| `Angles.ScopeWrapsAcrossHalfTurn` | src/main/java/frc/robot/subsystems/SwerveModule.java:196-219 | -170° scoped next to 170° is 190° |
| `StateOptimizer.Optimize` | src/main/java/frc/robot/subsystems/SwerveModule.java:233-247 | the optimized state moves the wheel the same way (same heading and speed, or opposite heading and negated speed), keeps `|speed|`, and is within π/2 of the current angle |
| `StateOptimizer.OptimizeFlipsExactly` | src/main/java/frc/robot/subsystems/SwerveModule.java:238-246 | the angle moves off the scoped target exactly when the scoped delta exceeds π/2, by -π if the delta is above π/2 and by +π otherwise; the speed is negated with the flip and kept without it |
| `StateOptimizer.HalfTurnsApart` | src/main/java/frc/robot/subsystems/SwerveModule.java:243-244 | angles with the heading of a or of a + π are a whole number of half turns apart |
| `StateOptimizer.OptimizeMinimalTravel` | src/main/java/frc/robot/subsystems/SwerveModule.java:238-246 | no state that gives the same wheel motion is nearer the current angle than the optimized one |
| `StateOptimizer.OptimizeReversesLongTurn` | src/main/java/frc/robot/subsystems/SwerveModule.java:233-247 | (2 m/s, 200°) from a current 10° becomes (-2 m/s, 20°) |
| `HeadingEstimator.IntegratedAngle` | src/main/java/frc/robot/subsystems/SwerveModule.java:153-162 | the integrated angle lies in `[0, 2π)` and has the heading of the encoder position |
| `HeadingEstimator.IntegratedAngleUnique` | src/main/java/frc/robot/subsystems/SwerveModule.java:155-160 | any angle in `[0, 2π)` with the encoder position's heading is the integrated angle |
| `HeadingEstimator.IntegratedAngleOfTurn` | src/main/java/frc/robot/subsystems/SwerveModule.java:155-160 | a position already in `[0, 2π)` reads back unchanged |
| `HeadingEstimator.CanCoderAngle` | src/main/java/frc/robot/subsystems/SwerveModule.java:145-147 | as written (offset reduced, sum not): has the heading of `2π·absPos - offset` and, for `absPos` in `[0, 1)`, lies in `(-2π, 4π)` |
| `HeadingEstimator.SeededHeading` | src/main/java/frc/robot/subsystems/SwerveModule.java:261-265 | the integrated heading of the seeded encoder equals that of the calibrated reading `2π·absPos - offset`, and equals the reading itself when it lies in `[0, 2π)` |
| `SwerveDrive.SharedSetpoints.constructor` | src/main/java/frc/robot/subsystems/SwerveModule.java:37-43 | the static setpoint fields start at zero |
| `SwerveDrive.CommandInTurn` | src/main/java/frc/robot/subsystems/SwerveModule.java:37-43 | two modules on one set of static fields commanded in turn: the angular and velocity setpoints left are the second module's (the first's when the second is inside the dead band); the drive-law fields keep their old values in autonomous and hold the last live module's velocity and pid + ff in teleop; the first keeps its own steering command |
| `SwerveDrive.SwerveModule.constructor` | src/main/java/frc/robot/subsystems/SwerveModule.java:68-119 | the steering gain ends at 0.5 (0.8 is overwritten) with kD 0; the offset is kept raw; the sensor fields hold the start-up readings passed in |
| `SwerveDrive.SwerveModule.State` | src/main/java/frc/robot/subsystems/SwerveModule.java:128-130 | the reported state is the drive velocity with the CANcoder angle: it has the heading of `2π·absPos - offset` and, for `absPos` in `[0, 1)`, lies in `(-2π, 4π)` |
| `SwerveDrive.SwerveModule.ResetDistance` | src/main/java/frc/robot/subsystems/SwerveModule.java:121-125 | the drive encoder position becomes 0 and nothing else changes |
| `SwerveDrive.SwerveModule.ResetEncoders` | src/main/java/frc/robot/subsystems/SwerveModule.java:320-325 | both encoder positions become 0 and nothing else changes |
| `SwerveDrive.SwerveModule.Stop` | src/main/java/frc/robot/subsystems/SwerveModule.java:327-330 | both motors are commanded 0 and nothing else changes |
| `SwerveDrive.SwerveModule.InitRotationOffset` | src/main/java/frc/robot/subsystems/SwerveModule.java:261-265 | the steering encoder is set to the CANcoder angle, and its integrated heading becomes that of the calibrated absolute reading |
| `SwerveDrive.SwerveModule.SetDesiredStateClosedLoop` | src/main/java/frc/robot/subsystems/SwerveModule.java:273-318 | dead band: both motors 0, shared setpoints and encoders unchanged. Otherwise the angular setpoint is the optimized angle, within π/2 of the integrated heading. The steering motor gets the controller's output. The velocity setpoint is the optimized speed, with the desired magnitude. Autonomous: drive voltage is `-ff(setpoint)`. Teleop: duty cycle `pid(velocity, setpoint) + ff(setpoint)`, also stored in `driveOutput` |

## Left out

- Hardware objects and their configuration are plain fields or are omitted. This covers the motor controllers, encoders, CANcoder, conversion factors, idle modes and the CANcoder range and direction settings. The drive controller's kP (0.015) is set but never used by the modelled code.
- The internals of the library `PIDController` (including continuous input) and `SimpleMotorFeedforward` are uninterpreted functions. Their gains (the teleop 0.0020645, 0.012 and 0.2, and the feedforward constants in `Constants.java`) are not modelled.
- `RobotState.isAutonomous()` is a hidden global query. It is the `isAutonomous` parameter.
- Floating-point rounding: all arithmetic is exact over reals, and `PI` is the decimal Java prints for `Math.PI`. In doubles, adding `2π` no longer changes an angle of magnitude above about 7·10^16 (or an infinite one), so the loops of `placeInAppropriate0To360Scope` never end there. Over reals they always end, and the model does not capture that non-termination.
- `getDriveDistanceRadians`, `getCurrentVelocityMetersPerSecond`, `getCurrentDistanceMetersPerSecond`, `getModuleID`, `getDriveMotor` and `getRotationMotor` are plain field reads. They appear only as the fields they read. `getState` is not one: it is `State`.
- The sensor fields (encoder positions and velocity, CANcoder position) change with the physical wheel. The model has no operation for that: they are inputs.
- SmartDashboard and Logger telemetry are not modelled.
- SwerveDrive.SwerveModule.constructor: the motor commands start as `DutyCycle(0.0)`, standing for a controller that has not been commanded yet. The Java constructor gives no motor command.
- SwerveDrive.SwerveModule.SetDesiredStateClosedLoop: the steering controller's `calculate` is taken as a function of (measurement, setpoint) only. Its internal state (the previous error and the integral accumulator) is left out. That state affects only the integral and derivative terms, and both are zero (kI = kD = 0).
- The other subsystems and commands are not part of this model: shooter, vision, pneumatics, collector, arm presets and autonomous balance.
