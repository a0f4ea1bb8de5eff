/** The shoot command: spins the shooter at the negation of the requested RPM until interrupted. */
module ShootCommand {
  import opened Platform
  import opened ShooterSubsystem

  class Shoot {
    const shooter: Shooter
    /** The RPM actually sent: the negation of the constructor's argument. */
    const rpm: real

    constructor (shooter: Shooter, rpm: real)
      ensures this.shooter == shooter && this.rpm == -rpm
    {
      this.shooter := shooter;
      this.rpm := -rpm;
    }

    /** The left motor gets the stored (negated) RPM and the right motor its mirror image. */
    method Initialize()
      requires shooter.Valid()
      modifies shooter`rpm, shooter.leftMotor`setpoint, shooter.leftMotor`calls, shooter.rightMotor`setpoint, shooter.rightMotor`calls
      ensures shooter.rpm == rpm
      ensures shooter.leftMotor.setpoint == Velocity(rpm) && shooter.rightMotor.setpoint == Velocity(-rpm)
      ensures shooter.leftMotor.calls == old(shooter.leftMotor.calls) + [SetRPMCall(rpm)]
      ensures shooter.rightMotor.calls == old(shooter.rightMotor.calls) + [SetRPMCall(-rpm)]
    {
      shooter.SetRPM(rpm);
    }

    /** Does nothing while scheduled. */
    method Execute()
      ensures unchanged(shooter, shooter.leftMotor, shooter.rightMotor)
    {
    }

    method End(interrupted: bool)
      requires shooter.Valid()
      modifies shooter`percentSpeed, shooter.leftMotor`setpoint, shooter.leftMotor`calls, shooter.rightMotor`setpoint, shooter.rightMotor`calls
      ensures shooter.percentSpeed == 0.0
      ensures shooter.leftMotor.setpoint == PercentOutput(0.0) && shooter.rightMotor.setpoint == PercentOutput(0.0)
      ensures shooter.leftMotor.calls == old(shooter.leftMotor.calls) + [SetPercentSpeedCall(0.0)]
      ensures shooter.rightMotor.calls == old(shooter.rightMotor.calls) + [SetPercentSpeedCall(0.0)]
    {
      shooter.SetPercentSpeed(0.0);
    }

    /** The command runs until it is interrupted. */
    function IsFinished(): (finished: bool)
      ensures !finished
    {
      false
    }
  }
}
