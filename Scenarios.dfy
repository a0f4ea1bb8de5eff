/** Sequences of calls, as the robot's scheduler makes them, and what their contracts let a caller conclude. */
module Scenarios {
  import opened Platform
  import opened GyroSubsystem
  import opened WristSubsystem
  import opened Wrist2Subsystem
  import opened SetWristPercentSpeedCommand
  import opened ShooterSubsystem
  import opened ShootCommand
  import opened Shooter2Subsystem

  /** Toggling the heading source twice restores the selection and the reported yaw. */
  method ToggleTwice(gyro: Gyro)
    modifies gyro`usePigeon
    ensures gyro.usePigeon == old(gyro.usePigeon)
    ensures gyro.GetYaw() == old(gyro.GetYaw())
  {
    gyro.ToggleGyro();
    gyro.ToggleGyro();
  }

  /** Selecting either source right after a re-zero reports the same yaw when the Pigeon2 reset zeroes its raw yaw. */
  method RezeroThenToggle(gyro: Gyro, degreesCcw: real)
    requires gyro.pigeon.yawAfterReset == 0.0
    modifies gyro, gyro.pigeon, gyro.navX
    ensures gyro.GetYawPigeon2() == degreesCcw && gyro.GetYawNavX() == degreesCcw
    ensures gyro.GetYaw() == degreesCcw
    ensures gyro.usePigeon == !old(gyro.usePigeon)
  {
    gyro.SetYaw(degreesCcw);
    assert gyro.GetYaw() == degreesCcw;
    gyro.ToggleGyro();
  }

  /** An explicit speed command cancels a hold: the next periodic sends that speed, not the controller's. */
  method HoldThenSetSpeed(wrist: Wrist, target: real, percentSpeed: real)
    modifies wrist, wrist.motor
    ensures !wrist.isHoldingPosition
    ensures wrist.motor.setpoint == PercentOutput(percentSpeed)
  {
    wrist.HoldPosition(target);
    wrist.SetPercentSpeed(percentSpeed);
    wrist.Periodic();
  }

  /** Repeated periodic calls on Wrist2 send the same stored speed each time. */
  method Wrist2RepeatedPeriodic(wrist: Wrist2)
    modifies wrist.motor
    ensures wrist.motor.calls == old(wrist.motor.calls) + [SetPercentSpeedCall(wrist.percentSpeed), SetPercentSpeedCall(wrist.percentSpeed)]
  {
    wrist.Periodic();
    wrist.Periodic();
  }

  /** Built without a trigger, the command never touches the soft limits however often it executes. */
  method NoTriggerNoSoftLimitCalls(wrist: Wrist, percentSpeed: real)
    modifies wrist, wrist.motor
    ensures wrist.motor.calls == old(wrist.motor.calls)
    ensures wrist.motor.softLimitsEnabled == old(wrist.motor.softLimitsEnabled)
  {
    var command := new SetWristPercentSpeed(wrist, percentSpeed);
    command.Execute();
    command.Execute();
    command.Execute();
  }

  /** A held override trigger disables the soft limits once, however many times execute runs; releasing it enables them once. */
  method HoldAndReleaseOverride(wrist: Wrist, percentSpeed: real, trigger: Trigger)
    modifies wrist.motor, trigger
    ensures wrist.motor.calls == old(wrist.motor.calls) + [DisableSoftLimitsCall, EnableSoftLimitsCall]
    ensures wrist.motor.softLimitsEnabled
  {
    var command := new SetWristPercentSpeed.WithOverride(wrist, percentSpeed, trigger);
    trigger.pressed := true;
    command.Execute();
    command.Execute();
    trigger.pressed := false;
    command.Execute();
    command.Execute();
  }

  /** A shot at RPM spins the left motor at -RPM and the right at +RPM, and ending it stops both. */
  method ShootLifecycle(shooter: Shooter, rpm: real)
    requires shooter.Valid()
    modifies shooter, shooter.leftMotor, shooter.rightMotor
    ensures shooter.leftMotor.setpoint == PercentOutput(0.0) && shooter.rightMotor.setpoint == PercentOutput(0.0)
    ensures shooter.rpm == -rpm
    ensures shooter.leftMotor.calls == old(shooter.leftMotor.calls) + [SetRPMCall(-rpm), SetPercentSpeedCall(0.0)]
    ensures shooter.rightMotor.calls == old(shooter.rightMotor.calls) + [SetRPMCall(rpm), SetPercentSpeedCall(0.0)]
  {
    var shoot := new Shoot(shooter, rpm);
    shoot.Initialize();
    assert shooter.leftMotor.setpoint == Velocity(-rpm) && shooter.rightMotor.setpoint == Velocity(rpm);
    shoot.Execute();
    assert !shoot.IsFinished();
    shoot.End(false);
  }

  /** The main-roller calls never reach the indexer, and the indexer calls never reach the rollers. */
  method Shooter2SeparateMotors(shooter: Shooter2, percentSpeed: real)
    requires shooter.Valid()
    modifies shooter.lowerRoller, shooter.upperRoller, shooter.indexer
    ensures shooter.lowerRoller.setpoint == PercentOutput(0.0) && shooter.upperRoller.setpoint == PercentOutput(0.0)
    ensures shooter.indexer.setpoint == PercentOutput(-percentSpeed)
  {
    shooter.SetIndexerPercentSpeedForShooting(percentSpeed);
    shooter.SetMainRollerPercentSpeedForIntake(percentSpeed);
    assert shooter.indexer.setpoint == PercentOutput(-percentSpeed);
    shooter.StopMainRoller();
  }
}
