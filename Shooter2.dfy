/**
 * The second shooter: lower and upper rollers at the mouth, driven together, and an indexer at
 * the back. For every motor a positive command intakes and a negative one shoots.
 */
module Shooter2Subsystem {
  import opened Platform

  class Shooter2 {
    const lowerRoller: SparkMaxMotor
    const upperRoller: SparkMaxMotor
    const indexer: SparkMaxMotor

    ghost predicate Valid()
    {
      lowerRoller != upperRoller && lowerRoller != indexer && upperRoller != indexer
    }

    constructor ()
      ensures Valid() && fresh(lowerRoller) && fresh(upperRoller) && fresh(indexer)
      ensures lowerRoller.setpoint == NoCommand && upperRoller.setpoint == NoCommand && indexer.setpoint == NoCommand
      ensures lowerRoller.calls == [] && upperRoller.calls == [] && indexer.calls == []
    {
      lowerRoller := new SparkMaxMotor();
      upperRoller := new SparkMaxMotor();
      indexer := new SparkMaxMotor();
    }

    method SetMainRollerPercentSpeedForIntake(percentSpeed: real)
      requires Valid()
      modifies lowerRoller`setpoint, lowerRoller`calls, upperRoller`setpoint, upperRoller`calls
      ensures lowerRoller.setpoint == PercentOutput(percentSpeed)
      ensures upperRoller.setpoint == lowerRoller.setpoint
      ensures lowerRoller.calls == old(lowerRoller.calls) + [SetPercentSpeedCall(percentSpeed)]
      ensures upperRoller.calls == old(upperRoller.calls) + [SetPercentSpeedCall(percentSpeed)]
      ensures unchanged(indexer)
    {
      lowerRoller.SetPercentSpeed(percentSpeed);
      upperRoller.SetPercentSpeed(percentSpeed);
    }

    method SetIndexerPercentSpeedForIntake(percentSpeed: real)
      requires Valid()
      modifies indexer`setpoint, indexer`calls
      ensures indexer.setpoint == PercentOutput(percentSpeed)
      ensures indexer.calls == old(indexer.calls) + [SetPercentSpeedCall(percentSpeed)]
      ensures unchanged(lowerRoller, upperRoller)
    {
      indexer.SetPercentSpeed(percentSpeed);
    }

    method SetMainRollerPercentSpeedForShooting(percentSpeed: real)
      requires Valid()
      modifies lowerRoller`setpoint, lowerRoller`calls, upperRoller`setpoint, upperRoller`calls
      ensures lowerRoller.setpoint == PercentOutput(-percentSpeed)
      ensures upperRoller.setpoint == lowerRoller.setpoint
      ensures lowerRoller.calls == old(lowerRoller.calls) + [SetPercentSpeedCall(-percentSpeed)]
      ensures upperRoller.calls == old(upperRoller.calls) + [SetPercentSpeedCall(-percentSpeed)]
      ensures unchanged(indexer)
    {
      var speed := -percentSpeed;
      lowerRoller.SetPercentSpeed(speed);
      upperRoller.SetPercentSpeed(speed);
    }

    method SetIndexerPercentSpeedForShooting(percentSpeed: real)
      requires Valid()
      modifies indexer`setpoint, indexer`calls
      ensures indexer.setpoint == PercentOutput(-percentSpeed)
      ensures indexer.calls == old(indexer.calls) + [SetPercentSpeedCall(-percentSpeed)]
      ensures unchanged(lowerRoller, upperRoller)
    {
      var speed := -percentSpeed;
      indexer.SetPercentSpeed(speed);
    }

    method StopMainRoller()
      requires Valid()
      modifies lowerRoller`setpoint, lowerRoller`calls, upperRoller`setpoint, upperRoller`calls
      ensures lowerRoller.setpoint == PercentOutput(0.0) && upperRoller.setpoint == PercentOutput(0.0)
      ensures lowerRoller.calls == old(lowerRoller.calls) + [SetPercentSpeedCall(0.0)]
      ensures upperRoller.calls == old(upperRoller.calls) + [SetPercentSpeedCall(0.0)]
      ensures unchanged(indexer)
    {
      SetMainRollerPercentSpeedForShooting(0.0);
    }

    method StopIndexer()
      requires Valid()
      modifies indexer`setpoint, indexer`calls
      ensures indexer.setpoint == PercentOutput(0.0)
      ensures indexer.calls == old(indexer.calls) + [SetPercentSpeedCall(0.0)]
      ensures unchanged(lowerRoller, upperRoller)
    {
      SetIndexerPercentSpeedForShooting(0.0);
    }
  }
}
