/** The wrist joint: a motor driven at a stored percent speed, or a bang-bang hold on a target position. */
module WristSubsystem {
  import opened Platform

  /** Two degrees, in rotations: the half-width of the hold controller's deadband. */
  const HoldTolerance: real := 2.0 / 360.0
  /** Speed used to raise the wrist toward a target above it. */
  const RaiseSpeed: real := 0.40
  /** Speed used to lower the wrist toward a target below it. */
  const LowerSpeed: real := -0.05

  /** The speed the hold controller commands for a position error (target minus position, in rotations). */
  function HoldSpeed(positionError: real): (speed: real)
    ensures speed > 0.0 <==> positionError > HoldTolerance
    ensures speed < 0.0 <==> positionError < -HoldTolerance
    ensures speed == 0.0 <==> -HoldTolerance <= positionError <= HoldTolerance
    ensures speed == RaiseSpeed || speed == LowerSpeed || speed == 0.0
    ensures speed * positionError >= 0.0
  {
    if positionError > HoldTolerance then RaiseSpeed
    else if positionError < -HoldTolerance then LowerSpeed
    else 0.0
  }

  class Wrist {
    const motor: SparkMaxMotor
    var percentSpeed: real
    var isHoldingPosition: bool
    var positionToHold: real

    /** The two soft limits are robot constants, handed in here. */
    constructor (lowerSoftLimit: real, upperSoftLimit: real)
      ensures fresh(motor)
      ensures percentSpeed == 0.0 && !isHoldingPosition && positionToHold == 0.0
      ensures motor.setpoint == NoCommand
      ensures motor.brakeOnIdle && motor.softLimitsEnabled
      ensures motor.lowerSoftLimit == lowerSoftLimit && motor.upperSoftLimit == upperSoftLimit
      ensures motor.calls == [SetBrakeOnIdleCall(true), SetLowerSoftLimitCall(lowerSoftLimit), SetUpperSoftLimitCall(upperSoftLimit)]
    {
      motor := new SparkMaxMotor();
      percentSpeed := 0.0;
      isHoldingPosition := false;
      positionToHold := 0.0;
      new;
      motor.SetToBrakeOnIdle(true);
      motor.SetAndEnableLowerSoftLimit(lowerSoftLimit);
      motor.SetAndEnableUpperSoftLimit(upperSoftLimit);
    }

    /** Rotations counterclockwise from the encoder's zero. */
    function GetPosition(): (position: real)
      reads motor
      ensures position == motor.position
    {
      motor.position
    }

    /** An explicit speed command: it is only stored (periodic sends it) and it cancels holding. */
    method SetPercentSpeed(percentSpeed: real)
      modifies this`isHoldingPosition, this`percentSpeed
      ensures this.percentSpeed == percentSpeed
      ensures !isHoldingPosition
    {
      isHoldingPosition := false;
      this.percentSpeed := percentSpeed;
    }

    /** Holds the position the wrist is at now. */
    method HoldCurrentPosition()
      modifies this`isHoldingPosition, this`positionToHold
      ensures isHoldingPosition && positionToHold == motor.position
    {
      HoldPosition(GetPosition());
    }

    /** Enters holding mode with the given target; the stored speed is left for periodic to replace. */
    method HoldPosition(positionToHold: real)
      modifies this`isHoldingPosition, this`positionToHold
      ensures isHoldingPosition && this.positionToHold == positionToHold
    {
      isHoldingPosition := true;
      this.positionToHold := positionToHold;
    }

    /** Once per scheduler run: when holding, recompute the speed by bang-bang; always send the stored speed. */
    method Periodic()
      modifies this`percentSpeed, motor`setpoint, motor`calls
      ensures isHoldingPosition ==> percentSpeed == HoldSpeed(positionToHold - motor.position)
      ensures !isHoldingPosition ==> percentSpeed == old(percentSpeed)
      ensures motor.setpoint == PercentOutput(percentSpeed)
      ensures motor.calls == old(motor.calls) + [SetPercentSpeedCall(percentSpeed)]
    {
      if isHoldingPosition {
        var positionError := positionToHold - GetPosition();
        if positionError > HoldTolerance {
          percentSpeed := RaiseSpeed;
        } else if positionError < -HoldTolerance {
          percentSpeed := LowerSpeed;
        } else {
          percentSpeed := 0.0;
        }
      }
      motor.SetPercentSpeed(percentSpeed);
    }
  }
}
