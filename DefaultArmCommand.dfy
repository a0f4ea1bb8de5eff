/** The shoulder and its default command, which maps the two trigger axes to a shoulder RPM. */
module ArmCommands {
  import opened Platform

  /** Shoulder RPM per unit of trigger travel. */
  const RPMPerTrigger: real := 24.0

  /**
   * The shoulder RPM for the two trigger axes: up with the right trigger alone, down with the left
   * trigger alone, and still when both or neither are pressed.
   */
  function ShoulderRPM(right: real, left: real): (rpm: real)
    ensures rpm > 0.0 <==> right > 0.0 && !(left > 0.0)
    ensures rpm < 0.0 <==> left > 0.0 && !(right > 0.0)
    ensures rpm > 0.0 ==> rpm == right * RPMPerTrigger
    ensures rpm < 0.0 ==> rpm == -left * RPMPerTrigger
    ensures 0.0 <= right <= 1.0 && 0.0 <= left <= 1.0 ==> -RPMPerTrigger <= rpm <= RPMPerTrigger
  {
    if right > 0.0 && left > 0.0 then 0.0
    else if right > 0.0 then right * RPMPerTrigger
    else if left > 0.0 then -left * RPMPerTrigger
    else 0.0
  }

  /** The shoulder; its right motor follows the left one, so only the left motor is commanded. */
  class Shoulder {
    const leftMotor: SparkMaxMotor
    const rightMotor: SparkMaxMotor

    /** Brake mode, the follower link and PID gains are driver configuration outside the model. */
    constructor ()
      ensures fresh(leftMotor) && fresh(rightMotor) && leftMotor != rightMotor
      ensures leftMotor.setpoint == NoCommand && rightMotor.setpoint == NoCommand
      ensures leftMotor.calls == [] && rightMotor.calls == []
    {
      leftMotor := new SparkMaxMotor();
      rightMotor := new SparkMaxMotor();
    }
  }

  class DefaultArmCommand {
    const shoulder: Shoulder
    const controller: XboxController
    var desiredShoulderRPM: real

    constructor (shoulder: Shoulder, controller: XboxController)
      ensures this.shoulder == shoulder && this.controller == controller
      ensures desiredShoulderRPM == 0.0
    {
      this.shoulder := shoulder;
      this.controller := controller;
      desiredShoulderRPM := 0.0;
    }

    /** Every scheduler run sends the RPM for the current trigger readings. */
    method Execute()
      modifies this`desiredShoulderRPM, shoulder.leftMotor`setpoint, shoulder.leftMotor`calls
      ensures desiredShoulderRPM == ShoulderRPM(controller.rightTriggerAxis, controller.leftTriggerAxis)
      ensures shoulder.leftMotor.setpoint == Velocity(desiredShoulderRPM)
      ensures shoulder.leftMotor.calls == old(shoulder.leftMotor.calls) + [SetRPMCall(desiredShoulderRPM)]
    {
      var right := controller.rightTriggerAxis;
      var left := controller.leftTriggerAxis;
      if right > 0.0 && left > 0.0 {
        desiredShoulderRPM := 0.0;
      } else if right > 0.0 {
        desiredShoulderRPM := right * RPMPerTrigger;
      } else if left > 0.0 {
        desiredShoulderRPM := -left * RPMPerTrigger;
      } else {
        desiredShoulderRPM := 0.0;
      }
      shoulder.leftMotor.SetRPM(desiredShoulderRPM);
    }

    method End(interrupted: bool)
      modifies shoulder.leftMotor`setpoint, shoulder.leftMotor`calls
      ensures shoulder.leftMotor.setpoint == PercentOutput(0.0)
      ensures shoulder.leftMotor.calls == old(shoulder.leftMotor.calls) + [SetPercentSpeedCall(0.0)]
    {
      shoulder.leftMotor.SetPercentSpeed(0.0);
    }

    /** The command runs until it is interrupted. */
    function IsFinished(): (finished: bool)
      ensures !finished
    {
      false
    }
  }
}
