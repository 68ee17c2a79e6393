/** One wheel of the swerve drive (SwerveModule): motor outputs, encoder
    positions, the setpoints shared by all four modules, and the per-cycle
    closed-loop command. */
module SwerveDrive {
  import opened Angles
  import opened StateOptimizer
  import opened HeadingEstimator

  /** The last command given to a motor controller: set(duty cycle) or setVoltage(volts). */
  datatype MotorCommand = DutyCycle(value: real) | Voltage(volts: real)

  /** Below this speed magnitude (m/s) a desired state is a stop. */
  const DEAD_BAND: real := 0.001

  /** The static fields of the module class. They belong to the class, not to
      a module: every module holds a reference to this one object and
      overwrites what the module commanded before it. */
  class SharedSetpoints {
    var angularSetPoint: real
    var drivePidOutput: real
    var feedForwardOutputVoltage: real
    var driveOutput: real
    /** Spelled `velolictySetpoint` in the source. */
    var velocitySetpoint: real
    var currentDriveVelocity: real

    /** Java's initial values of the static fields. */
    constructor ()
      ensures angularSetPoint == 0.0 && drivePidOutput == 0.0 && feedForwardOutputVoltage == 0.0
      ensures driveOutput == 0.0 && velocitySetpoint == 0.0 && currentDriveVelocity == 0.0
    {
      angularSetPoint := 0.0;
      drivePidOutput := 0.0;
      feedForwardOutputVoltage := 0.0;
      driveOutput := 0.0;
      velocitySetpoint := 0.0;
      currentDriveVelocity := 0.0;
    }
  }

  class SwerveModule {
    const moduleId: int
    /** The CANcoder's calibration offset in radians, kept raw. */
    const offset: real
    const shared: SharedSetpoints

    /** The steering controller's calculate(measurement, setpoint): a PID
        controller with continuous input on [-π, π], library code. */
    const rotationController: (real, real) -> real
    /** The gains the constructor gives the steering controller. They record
        the constructor's setP/setD calls only: the controller is the
        uninterpreted function above, so they feed no output. */
    var rotationKP: real
    var rotationKD: real

    /** The autonomous feedforward's calculate(velocity) (a library
        SimpleMotorFeedforward). The robot has one static feedforward, and
        every module builds its teleop controller and feedforward with the
        same gains, so all modules are meant to receive the same three
        functions below. */
    const autonomousFeedforward: real -> real
    /** calculate(measurement, setpoint) of the fresh proportional controller of the teleop drive loop. */
    const teleopDrivePid: (real, real) -> real
    /** calculate(velocity) of the fresh feedforward of the teleop drive loop. */
    const teleopFeedforward: real -> real

    var driveMotor: MotorCommand
    var rotationMotor: MotorCommand

    /** Sensor state: drive encoder position and velocity, steering encoder
        position (radians), CANcoder absolute position (rotations, [0, 1)). */
    var drivePosition: real
    var driveVelocity: real
    var rotationPosition: real
    var absolutePosition: real

    /** The steering controller is built with kP 0.8 and then given kP 0.5
        and kD 0. The sensor fields hold whatever the hardware reports at
        start-up, given as parameters; no motor has been commanded yet. */
    constructor (moduleId: int, measuredOffsetRadians: real, shared: SharedSetpoints,
                 rotationController: (real, real) -> real, autonomousFeedforward: real -> real,
                 teleopDrivePid: (real, real) -> real, teleopFeedforward: real -> real,
                 drivePosition: real, driveVelocity: real, rotationPosition: real,
                 absolutePosition: real)
      ensures this.moduleId == moduleId && offset == measuredOffsetRadians && this.shared == shared
      ensures this.rotationController == rotationController
      ensures this.autonomousFeedforward == autonomousFeedforward
      ensures this.teleopDrivePid == teleopDrivePid && this.teleopFeedforward == teleopFeedforward
      ensures rotationKP == 0.5 && rotationKD == 0.0
      ensures driveMotor == DutyCycle(0.0) && rotationMotor == DutyCycle(0.0)
      ensures this.drivePosition == drivePosition && this.driveVelocity == driveVelocity
      ensures this.rotationPosition == rotationPosition
      ensures this.absolutePosition == absolutePosition
    {
      this.moduleId := moduleId;
      offset := measuredOffsetRadians;
      this.shared := shared;
      this.rotationController := rotationController;
      this.autonomousFeedforward := autonomousFeedforward;
      this.teleopDrivePid := teleopDrivePid;
      this.teleopFeedforward := teleopFeedforward;
      rotationKP, rotationKD := 0.8, 0.0;
      driveMotor, rotationMotor := DutyCycle(0.0), DutyCycle(0.0);
      this.drivePosition, this.driveVelocity := drivePosition, driveVelocity;
      this.rotationPosition := rotationPosition;
      this.absolutePosition := absolutePosition;
      rotationKP := 0.5;
      rotationKD := 0.0;
    }

    /** getState: the drive velocity and the CANcoder angle (not the
        integrated angle), unreduced as getCanCoderAngle returns it. */
    function State(): (s: ModuleState)
      reads this
      ensures s.speedMetersPerSecond == driveVelocity
      ensures SameHeading(s.angle, TWO_PI * absolutePosition - offset)
      ensures 0.0 <= absolutePosition < 1.0 ==> -TWO_PI < s.angle < 2.0 * TWO_PI
    {
      ModuleState(driveVelocity, CanCoderAngle(absolutePosition, offset))
    }

    /** resetDistance: the drive encoder restarts at zero. */
    method ResetDistance()
      modifies this`drivePosition
      ensures drivePosition == 0.0
    {
      drivePosition := 0.0;
    }

    /** resetEncoders: both relative encoders restart at zero. */
    method ResetEncoders()
      modifies this`drivePosition, this`rotationPosition
      ensures drivePosition == 0.0 && rotationPosition == 0.0
    {
      drivePosition := 0.0;
      rotationPosition := 0.0;
    }

    /** stop: both motors are set to zero, whatever the controllers hold. */
    method Stop()
      modifies this`driveMotor, this`rotationMotor
      ensures driveMotor == DutyCycle(0.0) && rotationMotor == DutyCycle(0.0)
    {
      driveMotor := DutyCycle(0.0);
      rotationMotor := DutyCycle(0.0);
    }

    /** initRotationOffset: seed the steering encoder with the CANcoder angle;
        from then on the integrated heading is that of the calibrated
        absolute reading. */
    method InitRotationOffset()
      modifies this`rotationPosition
      ensures rotationPosition == CanCoderAngle(absolutePosition, offset)
      ensures IntegratedAngle(rotationPosition) == IntegratedAngle(TWO_PI * absolutePosition - offset)
      ensures 0.0 <= TWO_PI * absolutePosition - offset < TWO_PI ==>
                IntegratedAngle(rotationPosition) == TWO_PI * absolutePosition - offset
    {
      rotationPosition := CanCoderAngle(absolutePosition, offset);
      SeededHeading(absolutePosition, offset);
    }

    /** setDesiredStateClosedLoop: a speed inside the dead band stops the
        module and touches nothing else. Otherwise the desired state is
        optimized against the integrated heading, the steering motor is driven
        toward the (re-scoped) angle, and the drive motor gets the autonomous
        feedforward voltage, negated, or the teleop duty cycle of
        proportional correction plus feedforward. */
    method SetDesiredStateClosedLoop(unoptimizedDesiredState: ModuleState, isAutonomous: bool)
      modifies this`driveMotor, this`rotationMotor, shared
      ensures Abs(unoptimizedDesiredState.speedMetersPerSecond) < DEAD_BAND ==>
        driveMotor == DutyCycle(0.0) && rotationMotor == DutyCycle(0.0) && unchanged(shared)
      ensures Abs(unoptimizedDesiredState.speedMetersPerSecond) >= DEAD_BAND ==>
        var heading := IntegratedAngle(rotationPosition);
        var optimized := Optimize(unoptimizedDesiredState, heading);
        shared.angularSetPoint == optimized.angle &&
        Abs(shared.angularSetPoint - heading) <= PI / 2.0 &&
        rotationMotor == DutyCycle(rotationController(heading, optimized.angle)) &&
        shared.velocitySetpoint == optimized.speedMetersPerSecond &&
        Abs(shared.velocitySetpoint) == Abs(unoptimizedDesiredState.speedMetersPerSecond) &&
        if isAutonomous then
          driveMotor == Voltage(-autonomousFeedforward(optimized.speedMetersPerSecond)) &&
          shared.drivePidOutput == old(shared.drivePidOutput) &&
          shared.feedForwardOutputVoltage == old(shared.feedForwardOutputVoltage) &&
          shared.driveOutput == old(shared.driveOutput) &&
          shared.currentDriveVelocity == old(shared.currentDriveVelocity)
        else
          shared.currentDriveVelocity == driveVelocity &&
          shared.drivePidOutput == teleopDrivePid(driveVelocity, optimized.speedMetersPerSecond) &&
          shared.feedForwardOutputVoltage == teleopFeedforward(optimized.speedMetersPerSecond) &&
          shared.driveOutput == shared.drivePidOutput + shared.feedForwardOutputVoltage &&
          driveMotor == DutyCycle(shared.driveOutput)
    {
      if Abs(unoptimizedDesiredState.speedMetersPerSecond) < DEAD_BAND {
        Stop();
        return;
      }
      var optimizedDesiredState := Optimize(unoptimizedDesiredState, IntegratedAngle(rotationPosition));
      var setPoint := PlaceInAppropriate0To360Scope(optimizedDesiredState.angle, optimizedDesiredState.angle);
      ScopeSelf(optimizedDesiredState.angle);
      shared.angularSetPoint := setPoint;
      rotationMotor := DutyCycle(rotationController(IntegratedAngle(rotationPosition), shared.angularSetPoint));
      shared.velocitySetpoint := optimizedDesiredState.speedMetersPerSecond;
      if isAutonomous {
        driveMotor := Voltage(-autonomousFeedforward(shared.velocitySetpoint));
      } else {
        shared.currentDriveVelocity := driveVelocity;
        shared.drivePidOutput := teleopDrivePid(shared.currentDriveVelocity, shared.velocitySetpoint);
        shared.feedForwardOutputVoltage := teleopFeedforward(shared.velocitySetpoint);
        shared.driveOutput := shared.drivePidOutput + shared.feedForwardOutputVoltage;
        driveMotor := DutyCycle(shared.driveOutput);
      }
    }
  }

  /** The setpoint fields are static: of two modules built on one
      SharedSetpoints and commanded in turn, the later one's setpoints are
      the ones left (unless it was inside the dead band, which leaves the
      earlier one's), while each keeps its own motor commands. In autonomous
      neither module writes the drive-law fields, which keep their values. */
  method CommandInTurn(first: SwerveModule, second: SwerveModule,
                       firstState: ModuleState, secondState: ModuleState, isAutonomous: bool)
    requires first != second && first.shared == second.shared
    modifies first`driveMotor, first`rotationMotor, second`driveMotor, second`rotationMotor, first.shared
    ensures Abs(secondState.speedMetersPerSecond) >= DEAD_BAND ==>
      var optimized := Optimize(secondState, IntegratedAngle(second.rotationPosition));
      first.shared.angularSetPoint == optimized.angle &&
      first.shared.velocitySetpoint == optimized.speedMetersPerSecond
    ensures Abs(secondState.speedMetersPerSecond) < DEAD_BAND &&
            Abs(firstState.speedMetersPerSecond) >= DEAD_BAND ==>
      var optimized := Optimize(firstState, IntegratedAngle(first.rotationPosition));
      first.shared.angularSetPoint == optimized.angle &&
      first.shared.velocitySetpoint == optimized.speedMetersPerSecond
    ensures isAutonomous ==>
      first.shared.drivePidOutput == old(first.shared.drivePidOutput) &&
      first.shared.feedForwardOutputVoltage == old(first.shared.feedForwardOutputVoltage) &&
      first.shared.driveOutput == old(first.shared.driveOutput) &&
      first.shared.currentDriveVelocity == old(first.shared.currentDriveVelocity)
    ensures !isAutonomous && Abs(secondState.speedMetersPerSecond) >= DEAD_BAND ==>
      var v := Optimize(secondState, IntegratedAngle(second.rotationPosition)).speedMetersPerSecond;
      first.shared.currentDriveVelocity == second.driveVelocity &&
      first.shared.driveOutput == second.teleopDrivePid(second.driveVelocity, v) + second.teleopFeedforward(v)
    ensures !isAutonomous && Abs(secondState.speedMetersPerSecond) < DEAD_BAND &&
            Abs(firstState.speedMetersPerSecond) >= DEAD_BAND ==>
      var v := Optimize(firstState, IntegratedAngle(first.rotationPosition)).speedMetersPerSecond;
      first.shared.currentDriveVelocity == first.driveVelocity &&
      first.shared.driveOutput == first.teleopDrivePid(first.driveVelocity, v) + first.teleopFeedforward(v)
    ensures Abs(firstState.speedMetersPerSecond) >= DEAD_BAND ==>
      first.rotationMotor == DutyCycle(first.rotationController(
        IntegratedAngle(first.rotationPosition),
        Optimize(firstState, IntegratedAngle(first.rotationPosition)).angle))
  {
    first.SetDesiredStateClosedLoop(firstState, isAutonomous);
    second.SetDesiredStateClosedLoop(secondState, isAutonomous);
  }
}
