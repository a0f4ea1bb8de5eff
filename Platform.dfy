/**
 * The library and vendor classes the robot code talks to, reduced to what that code can
 * observe: every motor controller records the commands it was sent, every sensor exposes its
 * raw readings as fields that the environment (the hardware, the driver) sets.
 */
module Platform {

  /** The output a motor controller was last asked to produce. */
  datatype Setpoint =
    | NoCommand
    | PercentOutput(percent: real)
    | Velocity(rpm: real)

  /** One call made on a motor controller. */
  datatype MotorCall =
    | SetPercentSpeedCall(percent: real)
    | SetRPMCall(rpm: real)
    | EnableSoftLimitsCall
    | DisableSoftLimitsCall
    | SetLowerSoftLimitCall(lowerLimit: real)
    | SetUpperSoftLimitCall(upperLimit: real)
    | SetBrakeOnIdleCall(brake: bool)

  /** b is the same kind of command as a, in the opposite direction. */
  predicate Mirrored(a: Setpoint, b: Setpoint)
  {
    match a
    case NoCommand => b.NoCommand?
    case PercentOutput(p) => b == PercentOutput(-p)
    case Velocity(r) => b == Velocity(-r)
  }

  /** A SparkMax motor controller as the robot code sees it. */
  class SparkMaxMotor {
    /** The last speed command sent. */
    var setpoint: Setpoint
    /** One flag for both soft limits: set by the set-and-enable calls and by enableSoftLimits. */
    var softLimitsEnabled: bool
    var lowerSoftLimit: real
    var upperSoftLimit: real
    var brakeOnIdle: bool
    /** Encoder position, in rotations of the driven axle; set by the environment. */
    var position: real
    /** Every command sent to this controller, oldest first. */
    var calls: seq<MotorCall>

    constructor ()
      ensures setpoint == NoCommand && calls == []
    {
      setpoint := NoCommand;
      calls := [];
    }

    method SetPercentSpeed(percent: real)
      modifies this`setpoint, this`calls
      ensures setpoint == PercentOutput(percent)
      ensures calls == old(calls) + [SetPercentSpeedCall(percent)]
    {
      setpoint := PercentOutput(percent);
      calls := calls + [SetPercentSpeedCall(percent)];
    }

    method SetRPM(rpm: real)
      modifies this`setpoint, this`calls
      ensures setpoint == Velocity(rpm)
      ensures calls == old(calls) + [SetRPMCall(rpm)]
    {
      setpoint := Velocity(rpm);
      calls := calls + [SetRPMCall(rpm)];
    }

    method EnableSoftLimits()
      modifies this`softLimitsEnabled, this`calls
      ensures softLimitsEnabled
      ensures calls == old(calls) + [EnableSoftLimitsCall]
    {
      softLimitsEnabled := true;
      calls := calls + [EnableSoftLimitsCall];
    }

    method DisableSoftLimits()
      modifies this`softLimitsEnabled, this`calls
      ensures !softLimitsEnabled
      ensures calls == old(calls) + [DisableSoftLimitsCall]
    {
      softLimitsEnabled := false;
      calls := calls + [DisableSoftLimitsCall];
    }

    method SetAndEnableLowerSoftLimit(limit: real)
      modifies this`lowerSoftLimit, this`softLimitsEnabled, this`calls
      ensures lowerSoftLimit == limit && softLimitsEnabled
      ensures calls == old(calls) + [SetLowerSoftLimitCall(limit)]
    {
      lowerSoftLimit := limit;
      softLimitsEnabled := true;
      calls := calls + [SetLowerSoftLimitCall(limit)];
    }

    method SetAndEnableUpperSoftLimit(limit: real)
      modifies this`upperSoftLimit, this`softLimitsEnabled, this`calls
      ensures upperSoftLimit == limit && softLimitsEnabled
      ensures calls == old(calls) + [SetUpperSoftLimitCall(limit)]
    {
      upperSoftLimit := limit;
      softLimitsEnabled := true;
      calls := calls + [SetUpperSoftLimitCall(limit)];
    }

    method SetToBrakeOnIdle(brake: bool)
      modifies this`brakeOnIdle, this`calls
      ensures brakeOnIdle == brake
      ensures calls == old(calls) + [SetBrakeOnIdleCall(brake)]
    {
      brakeOnIdle := brake;
      calls := calls + [SetBrakeOnIdleCall(brake)];
    }
  }

  /** The Pigeon2 inertial sensor: raw yaw, pitch and roll in degrees. */
  class Pigeon2 {
    var yaw: real
    var pitch: real
    var roll: real
    /** The raw yaw the driver reports right after a reset. */
    var yawAfterReset: real
    /** How many times the sensor has been reset. */
    var resets: nat

    constructor ()
      ensures resets == 0
    {
      resets := 0;
    }

    method Reset()
      modifies this`yaw, this`resets
      ensures yaw == yawAfterReset
      ensures resets == old(resets) + 1
    {
      yaw := yawAfterReset;
      resets := resets + 1;
    }
  }

  /** The NavX (AHRS) inertial sensor: raw yaw (clockwise positive), pitch and roll in degrees. */
  class AHRS {
    var yaw: real
    var pitch: real
    var roll: real
    /** The raw yaw the driver reports right after a reset. */
    var yawAfterReset: real
    var connected: bool
    var resets: nat
    /** The answer the sensor gives to its k-th isCalibrating poll (counting from 0). */
    const calibratingAt: nat -> bool
    /** How many times isCalibrating has been polled. */
    var polls: nat

    constructor (calibratingAt: nat -> bool)
      ensures this.calibratingAt == calibratingAt
      ensures polls == 0 && resets == 0
    {
      this.calibratingAt := calibratingAt;
      polls := 0;
      resets := 0;
    }

    method IsCalibrating() returns (calibrating: bool)
      modifies this`polls
      ensures polls == old(polls) + 1
      ensures calibrating == calibratingAt(old(polls))
    {
      calibrating := calibratingAt(polls);
      polls := polls + 1;
    }

    method Reset()
      modifies this`yaw, this`resets
      ensures yaw == yawAfterReset
      ensures resets == old(resets) + 1
    {
      yaw := yawAfterReset;
      resets := resets + 1;
    }
  }

  /** The two trigger axes of an Xbox controller, each read in [0, 1]. */
  class XboxController {
    var rightTriggerAxis: real
    var leftTriggerAxis: real

    constructor ()
    {
    }
  }

  /** A button binding; `pressed` is the value getAsBoolean reports. */
  class Trigger {
    var pressed: bool

    constructor ()
    {
    }
  }

  /** The robot's persistent key/value store, keyed by variable name. */
  class Preferences {
    var entries: map<string, real>

    constructor (entries: map<string, real>)
      ensures this.entries == entries
    {
      this.entries := entries;
    }

    predicate ContainsKey(key: string)
      reads this
    {
      key in entries
    }

    /** The stored value for key, or backup when there is none. */
    function GetDouble(key: string, backup: real): (value: real)
      reads this
      ensures key in entries ==> value == entries[key]
      ensures key !in entries ==> value == backup
    {
      if key in entries then entries[key] else backup
    }

    method SetDouble(key: string, value: real)
      modifies this
      ensures entries == old(entries)[key := value]
    {
      entries := entries[key := value];
    }

    method Remove(key: string)
      modifies this
      ensures entries == old(entries) - {key}
    {
      entries := entries - {key};
    }
  }
}
