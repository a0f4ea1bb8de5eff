/** The two-motor shooter: the motors always get the same command in opposite directions. */
module ShooterSubsystem {
  import opened Platform

  class Shooter {
    const leftMotor: SparkMaxMotor
    const rightMotor: SparkMaxMotor
    var rpm: real
    var percentSpeed: real

    ghost predicate Valid()
    {
      leftMotor != rightMotor
    }

    /** The right motor runs as the mirror image of the left one. */
    ghost predicate MotorsOpposed()
      reads leftMotor, rightMotor
    {
      Mirrored(leftMotor.setpoint, rightMotor.setpoint)
    }

    constructor ()
      ensures Valid() && fresh(leftMotor) && fresh(rightMotor)
      ensures rpm == 0.0 && percentSpeed == 0.0
      ensures leftMotor.setpoint == Velocity(0.0) && rightMotor.setpoint == Velocity(0.0)
      ensures leftMotor.calls == [SetRPMCall(0.0)] && rightMotor.calls == [SetRPMCall(0.0)]
      ensures MotorsOpposed()
    {
      leftMotor := new SparkMaxMotor();
      rightMotor := new SparkMaxMotor();
      percentSpeed := 0.0;
      new;
      SetRPM(0.0);
    }

    method SetRPM(rpm: real)
      requires Valid()
      modifies this`rpm, leftMotor`setpoint, leftMotor`calls, rightMotor`setpoint, rightMotor`calls
      ensures this.rpm == rpm
      ensures leftMotor.setpoint == Velocity(rpm) && rightMotor.setpoint == Velocity(-rpm)
      ensures leftMotor.calls == old(leftMotor.calls) + [SetRPMCall(rpm)]
      ensures rightMotor.calls == old(rightMotor.calls) + [SetRPMCall(-rpm)]
      ensures MotorsOpposed()
    {
      this.rpm := rpm;
      leftMotor.SetRPM(this.rpm);
      rightMotor.SetRPM(-this.rpm);
    }

    method SetPercentSpeed(percentSpeed: real)
      requires Valid()
      modifies this`percentSpeed, leftMotor`setpoint, leftMotor`calls, rightMotor`setpoint, rightMotor`calls
      ensures this.percentSpeed == percentSpeed
      ensures leftMotor.setpoint == PercentOutput(percentSpeed) && rightMotor.setpoint == PercentOutput(-percentSpeed)
      ensures leftMotor.calls == old(leftMotor.calls) + [SetPercentSpeedCall(percentSpeed)]
      ensures rightMotor.calls == old(rightMotor.calls) + [SetPercentSpeedCall(-percentSpeed)]
      ensures MotorsOpposed()
    {
      this.percentSpeed := percentSpeed;
      leftMotor.SetPercentSpeed(this.percentSpeed);
      rightMotor.SetPercentSpeed(-this.percentSpeed);
    }

    /** In debug mode (always on) each scheduler run applies the speed read from the dashboard. */
    method Periodic(dashboardPercentSpeed: real)
      requires Valid()
      modifies this`percentSpeed, leftMotor`setpoint, leftMotor`calls, rightMotor`setpoint, rightMotor`calls
      ensures percentSpeed == dashboardPercentSpeed
      ensures leftMotor.setpoint == PercentOutput(dashboardPercentSpeed)
      ensures rightMotor.setpoint == PercentOutput(-dashboardPercentSpeed)
      ensures leftMotor.calls == old(leftMotor.calls) + [SetPercentSpeedCall(dashboardPercentSpeed)]
      ensures rightMotor.calls == old(rightMotor.calls) + [SetPercentSpeedCall(-dashboardPercentSpeed)]
      ensures MotorsOpposed()
    {
      percentSpeed := dashboardPercentSpeed;
      SetPercentSpeed(percentSpeed);
    }
  }
}
