/** The second wrist (between the arm and Shooter2): a stored percent speed that periodic sends to the motor. */
module Wrist2Subsystem {
  import opened Platform

  class Wrist2 {
    const motor: SparkMaxMotor
    var percentSpeed: real

    /** The two soft limits are robot constants, handed in here. */
    constructor (lowerSoftLimit: real, upperSoftLimit: real)
      ensures fresh(motor)
      ensures percentSpeed == 0.0
      ensures motor.setpoint == NoCommand
      ensures motor.brakeOnIdle && motor.softLimitsEnabled
      ensures motor.lowerSoftLimit == lowerSoftLimit && motor.upperSoftLimit == upperSoftLimit
      ensures motor.calls == [SetBrakeOnIdleCall(true), SetLowerSoftLimitCall(lowerSoftLimit), SetUpperSoftLimitCall(upperSoftLimit)]
    {
      motor := new SparkMaxMotor();
      new;
      motor.SetToBrakeOnIdle(true);
      motor.SetAndEnableLowerSoftLimit(lowerSoftLimit);
      motor.SetAndEnableUpperSoftLimit(upperSoftLimit);
      percentSpeed := 0.0;
    }

    /** Stores the speed as given: the documented range [-1, 1] is not enforced. */
    method SetPercentSpeed(percentSpeed: real)
      modifies this`percentSpeed
      ensures this.percentSpeed == percentSpeed
    {
      this.percentSpeed := percentSpeed;
    }

    method Stop()
      modifies this`percentSpeed
      ensures percentSpeed == 0.0
    {
      percentSpeed := 0.0;
    }

    /** Rotations of the axle from the encoder's zero. */
    function GetPosition(): (position: real)
      reads motor
      ensures position == motor.position
    {
      motor.position
    }

    /** Sends the stored speed and changes nothing else, so repeated calls send the same value. */
    method Periodic()
      modifies motor`setpoint, motor`calls
      ensures motor.setpoint == PercentOutput(percentSpeed)
      ensures motor.calls == old(motor.calls) + [SetPercentSpeedCall(percentSpeed)]
    {
      motor.SetPercentSpeed(percentSpeed);
    }
  }
}
