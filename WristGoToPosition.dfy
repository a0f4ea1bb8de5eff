/** A command that runs the wrist at a fixed speed toward a target position until it gets there. */
module WristGoToPositionCommand {
  import opened Wrappers
  import opened WristSubsystem

  function Abs(x: real): real
  {
    if x < 0.0 then -x else x
  }

  /**
   * The signed speed the command will use: the given magnitude, upward when the target lies above
   * the position at construction and downward otherwise; a negative magnitude is an error.
   */
  function ChooseSpeed(absoluteValuePercentSpeed: real, desiredPosition: real, position: real): (r: Result<real>)
    ensures r.Failure? <==> absoluteValuePercentSpeed < 0.0
    ensures r.Success? ==> Abs(r.value) == absoluteValuePercentSpeed
    ensures r.Success? ==> (r.value > 0.0 <==> desiredPosition > position && absoluteValuePercentSpeed > 0.0)
    ensures r.Success? ==> (r.value < 0.0 <==> desiredPosition <= position && absoluteValuePercentSpeed > 0.0)
  {
    if absoluteValuePercentSpeed < 0.0 then
      Failure("Wrist's absoluteValuePercentSpeed must be nonnegative")
    else
      Success(if desiredPosition > position then absoluteValuePercentSpeed else -absoluteValuePercentSpeed)
  }

  /** Moving up (speed at least 0) ends at or above the target; moving down ends at or below it. */
  predicate Finished(percentSpeed: real, position: real, desiredPosition: real)
  {
    if percentSpeed >= 0.0 then position >= desiredPosition else position <= desiredPosition
  }

  /**
   * A command finishes as soon as it starts exactly when it has nothing to do: the wrist is at the
   * target, or the target is below it and the speed is zero.
   */
  lemma FinishedAtStart(absoluteValuePercentSpeed: real, desiredPosition: real, position: real)
    requires absoluteValuePercentSpeed >= 0.0
    ensures (Finished(ChooseSpeed(absoluteValuePercentSpeed, desiredPosition, position).value, position, desiredPosition)
             <==> desiredPosition == position || (desiredPosition < position && absoluteValuePercentSpeed == 0.0))
  {
  }

  /**
   * With a nonzero speed the direction fixed at construction decides when the command ends: it is
   * finished at a position exactly when that position lies at or past the target in that direction.
   */
  lemma FinishedBeyondTarget(absoluteValuePercentSpeed: real, desiredPosition: real, start: real, position: real)
    requires absoluteValuePercentSpeed > 0.0
    ensures var speed := ChooseSpeed(absoluteValuePercentSpeed, desiredPosition, start).value;
      (Finished(speed, position, desiredPosition)
       <==> if desiredPosition > start then position >= desiredPosition else position <= desiredPosition)
  {
  }

  class WristGoToPosition {
    const wrist: Wrist
    const percentSpeed: real
    const desiredPosition: real

    /** The Java constructor past its guard: the direction is fixed from the wrist's position now. */
    constructor (wrist: Wrist, absoluteValuePercentSpeed: real, desiredPosition: real)
      requires absoluteValuePercentSpeed >= 0.0
      ensures this.wrist == wrist && this.desiredPosition == desiredPosition
      ensures Success(percentSpeed) == ChooseSpeed(absoluteValuePercentSpeed, desiredPosition, wrist.GetPosition())
    {
      this.wrist := wrist;
      this.desiredPosition := desiredPosition;
      this.percentSpeed := if desiredPosition > wrist.GetPosition() then absoluteValuePercentSpeed else -absoluteValuePercentSpeed;
    }

    /** The Java constructor: rejects a negative speed, then fixes the direction from the wrist's position now. */
    static method Create(wrist: Wrist, absoluteValuePercentSpeed: real, desiredPosition: real)
      returns (r: Result<WristGoToPosition>)
      ensures r.Failure? <==> absoluteValuePercentSpeed < 0.0
      ensures r.Success? ==> fresh(r.value) && r.value.wrist == wrist && r.value.desiredPosition == desiredPosition
      ensures r.Success? ==> Success(r.value.percentSpeed) == ChooseSpeed(absoluteValuePercentSpeed, desiredPosition, wrist.GetPosition())
    {
      if absoluteValuePercentSpeed < 0.0 {
        return Failure("Wrist's absoluteValuePercentSpeed must be nonnegative");
      }
      var command := new WristGoToPosition(wrist, absoluteValuePercentSpeed, desiredPosition);
      r := Success(command);
    }

    method Initialize()
      modifies wrist`isHoldingPosition, wrist`percentSpeed
      ensures wrist.percentSpeed == percentSpeed && !wrist.isHoldingPosition
    {
      wrist.SetPercentSpeed(percentSpeed);
    }

    method End(interrupted: bool)
      modifies wrist`isHoldingPosition, wrist`percentSpeed
      ensures wrist.percentSpeed == 0.0 && !wrist.isHoldingPosition
    {
      wrist.SetPercentSpeed(0.0);
    }

    function IsFinished(): (finished: bool)
      reads wrist.motor
      ensures percentSpeed >= 0.0 ==> (finished <==> wrist.motor.position >= desiredPosition)
      ensures percentSpeed < 0.0 ==> (finished <==> wrist.motor.position <= desiredPosition)
    {
      Finished(percentSpeed, wrist.GetPosition(), desiredPosition)
    }
  }
}
