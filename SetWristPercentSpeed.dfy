/**
 * A command that runs the wrist at a fixed speed while it is scheduled and, when it has an
 * override trigger, turns the motor's soft limits off while the trigger is held.
 */
module SetWristPercentSpeedCommand {
  import opened Platform
  import opened WristSubsystem

  /**
   * The soft-limit calls one execute makes: a call only when the wanted state differs from the
   * latched one, disabling on a rising edge and enabling on a falling edge.
   */
  function SoftLimitCalls(disable: bool, wereDisabled: bool): (calls: seq<MotorCall>)
    ensures |calls| <= 1
    ensures calls == [] <==> disable == wereDisabled
    ensures calls == [DisableSoftLimitsCall] <==> disable && !wereDisabled
    ensures calls == [EnableSoftLimitsCall] <==> !disable && wereDisabled
  {
    if disable && !wereDisabled then [DisableSoftLimitsCall]
    else if !disable && wereDisabled then [EnableSoftLimitsCall]
    else []
  }

  /** The soft-limit calls made by execute calls that see the trigger values of `trace` in order. */
  function LatchRun(trace: seq<bool>, wereDisabled: bool): seq<MotorCall>
  {
    if trace == [] then [] else SoftLimitCalls(trace[0], wereDisabled) + LatchRun(trace[1..], trace[0])
  }

  /** How many times the trigger value changes along `trace`, starting from `latched`. */
  function Edges(trace: seq<bool>, latched: bool): nat
  {
    if trace == [] then 0 else (if trace[0] != latched then 1 else 0) + Edges(trace[1..], trace[0])
  }

  /** The i-th soft-limit call of a run that starts with the latch at `wereDisabled`. */
  function AlternatingCall(wereDisabled: bool, i: nat): MotorCall
  {
    if (i % 2 == 0) != wereDisabled then DisableSoftLimitsCall else EnableSoftLimitsCall
  }

  /**
   * Over any run of execute calls, one soft-limit call is made per change of the trigger and no
   * more, and the calls alternate, so the motor never gets two disables or two enables in a row.
   */
  lemma {:induction false} LatchRunAlternates(trace: seq<bool>, wereDisabled: bool)
    ensures |LatchRun(trace, wereDisabled)| == Edges(trace, wereDisabled)
    ensures forall i :: 0 <= i < |LatchRun(trace, wereDisabled)| ==>
      LatchRun(trace, wereDisabled)[i] == AlternatingCall(wereDisabled, i)
  {
    if trace != [] {
      LatchRunAlternates(trace[1..], trace[0]);
      var rest := LatchRun(trace[1..], trace[0]);
      if trace[0] != wereDisabled {
        forall i | 1 <= i < |rest| + 1
          ensures AlternatingCall(trace[0], i - 1) == AlternatingCall(wereDisabled, i)
        {
          assert ((i - 1) % 2 == 0) == (i % 2 != 0);
        }
      }
    }
  }

  class SetWristPercentSpeed {
    const wrist: Wrist
    const percentSpeed: real
    const overrideSoftLimitsTrigger: Trigger?
    var softLimitsAreDisabled: bool

    /** Without a trigger the latch can never be set. */
    ghost predicate Valid()
      reads this
    {
      overrideSoftLimitsTrigger == null ==> !softLimitsAreDisabled
    }

    constructor (wrist: Wrist, percentSpeed: real)
      ensures this.wrist == wrist && this.percentSpeed == percentSpeed
      ensures overrideSoftLimitsTrigger == null && !softLimitsAreDisabled
      ensures Valid()
    {
      this.wrist := wrist;
      this.percentSpeed := percentSpeed;
      overrideSoftLimitsTrigger := null;
      softLimitsAreDisabled := false;
    }

    constructor WithOverride(wrist: Wrist, percentSpeed: real, overrideSoftLimitsTrigger: Trigger?)
      ensures this.wrist == wrist && this.percentSpeed == percentSpeed
      ensures this.overrideSoftLimitsTrigger == overrideSoftLimitsTrigger && !softLimitsAreDisabled
      ensures Valid()
    {
      this.wrist := wrist;
      this.percentSpeed := percentSpeed;
      this.overrideSoftLimitsTrigger := overrideSoftLimitsTrigger;
      softLimitsAreDisabled := false;
    }

    /** Whether the override trigger is present and held now. */
    predicate OverridePressed()
      reads overrideSoftLimitsTrigger
    {
      overrideSoftLimitsTrigger != null && overrideSoftLimitsTrigger.pressed
    }

    method Initialize()
      modifies wrist`isHoldingPosition, wrist`percentSpeed
      ensures wrist.percentSpeed == percentSpeed && !wrist.isHoldingPosition
    {
      wrist.SetPercentSpeed(percentSpeed);
    }

    /** The edge-triggered latch: afterwards the latch equals the trigger, and the motor saw one call per edge. */
    method Execute()
      requires Valid()
      modifies this`softLimitsAreDisabled, wrist.motor`softLimitsEnabled, wrist.motor`calls
      ensures Valid()
      ensures softLimitsAreDisabled == OverridePressed()
      ensures wrist.motor.calls == old(wrist.motor.calls) + SoftLimitCalls(softLimitsAreDisabled, old(softLimitsAreDisabled))
      ensures softLimitsAreDisabled != old(softLimitsAreDisabled) ==> wrist.motor.softLimitsEnabled == !softLimitsAreDisabled
      ensures softLimitsAreDisabled == old(softLimitsAreDisabled) ==> wrist.motor.softLimitsEnabled == old(wrist.motor.softLimitsEnabled)
      ensures overrideSoftLimitsTrigger == null ==> wrist.motor.calls == old(wrist.motor.calls)
    {
      var disableSoftLimits := overrideSoftLimitsTrigger != null && overrideSoftLimitsTrigger.pressed;
      if disableSoftLimits && !softLimitsAreDisabled {
        softLimitsAreDisabled := true;
        wrist.motor.DisableSoftLimits();
      } else if !disableSoftLimits && softLimitsAreDisabled {
        wrist.motor.EnableSoftLimits();
        softLimitsAreDisabled := false;
      }
    }

    /** Stops the wrist; the soft limits are left as they are. */
    method End(interrupted: bool)
      modifies wrist`isHoldingPosition, wrist`percentSpeed
      ensures wrist.percentSpeed == 0.0 && !wrist.isHoldingPosition
      ensures unchanged(wrist.motor)
    {
      wrist.SetPercentSpeed(0.0);
    }

    /** The command runs until it is interrupted. */
    function IsFinished(): (finished: bool)
      ensures !finished
    {
      false
    }
  }

  /**
   * A run of scheduler cycles: before each execute the trigger reads the next value of `trace`.
   * The motor sees exactly the calls LatchRun predicts, which by LatchRunAlternates are one per
   * trigger change, alternating between disable and enable.
   */
  method ExecuteRun(c: SetWristPercentSpeed, trace: seq<bool>)
    requires c.Valid() && c.overrideSoftLimitsTrigger != null
    modifies c`softLimitsAreDisabled, c.wrist.motor`softLimitsEnabled, c.wrist.motor`calls, c.overrideSoftLimitsTrigger`pressed
    ensures c.Valid()
    ensures c.wrist.motor.calls == old(c.wrist.motor.calls) + LatchRun(trace, old(c.softLimitsAreDisabled))
    ensures c.softLimitsAreDisabled == if trace == [] then old(c.softLimitsAreDisabled) else trace[|trace| - 1]
  {
    ghost var calls0, latch0 := c.wrist.motor.calls, c.softLimitsAreDisabled;
    for i := 0 to |trace|
      invariant c.Valid()
      invariant c.wrist.motor.calls + LatchRun(trace[i..], c.softLimitsAreDisabled) == calls0 + LatchRun(trace, latch0)
      invariant c.softLimitsAreDisabled == if i == 0 then latch0 else trace[i - 1]
    {
      assert trace[i..][1..] == trace[i + 1..];
      c.overrideSoftLimitsTrigger.pressed := trace[i];
      c.Execute();
    }
    assert trace[|trace|..] == [];
  }
}
