/**
 * The heading subsystem: a Pigeon2 and a NavX, one of them selected as the source of yaw,
 * each with its own zero offset, and a bounded wait for the NavX to finish calibrating.
 */
module GyroSubsystem {
  import opened Platform

  /** nTries starts at 1 and the calibration wait stops waiting once it reaches this value. */
  const MaxTries: nat := 100

  /**
   * How many times the calibration wait runs its body when the loop's first poll is poll number
   * `first`, nTries holds `tries`, and poll k is answered calibratingAt(k).
   */
  function Waits(calibratingAt: nat -> bool, first: nat, tries: nat): nat
    requires 1 <= tries <= MaxTries
    decreases MaxTries - tries
  {
    if calibratingAt(first) && tries < MaxTries then 1 + Waits(calibratingAt, first + 1, tries + 1) else 0
  }

  /** The wait runs at most until nTries reaches its bound, and it stops early only once the sensor has settled. */
  lemma {:induction false} WaitsBounded(calibratingAt: nat -> bool, first: nat, tries: nat)
    requires 1 <= tries <= MaxTries
    ensures Waits(calibratingAt, first, tries) <= MaxTries - tries
    ensures forall k :: first <= k < first + Waits(calibratingAt, first, tries) ==> calibratingAt(k)
    ensures Waits(calibratingAt, first, tries) < MaxTries - tries ==> !calibratingAt(first + Waits(calibratingAt, first, tries))
    decreases MaxTries - tries
  {
    if calibratingAt(first) && tries < MaxTries {
      WaitsBounded(calibratingAt, first + 1, tries + 1);
    }
  }

  /** A sensor that reports calibrating for exactly the first n polls makes the wait run min(n, MaxTries - tries) times. */
  lemma {:induction false} WaitsForSettling(calibratingAt: nat -> bool, first: nat, tries: nat, n: nat)
    requires 1 <= tries <= MaxTries
    requires forall k :: first <= k < first + n ==> calibratingAt(k)
    requires !calibratingAt(first + n)
    ensures Waits(calibratingAt, first, tries) == if n < MaxTries - tries then n else MaxTries - tries
    decreases MaxTries - tries
  {
    if n > 0 && tries < MaxTries {
      assert calibratingAt(first);
      WaitsForSettling(calibratingAt, first + 1, tries + 1, n - 1);
    }
  }

  /**
   * The result of the NavX calibration check starting at poll `first`: after the wait, one more
   * poll must report "not calibrating" and the sensor must report connected.
   */
  predicate CalibrationSucceeds(calibratingAt: nat -> bool, first: nat, connected: bool)
  {
    !calibratingAt(first + Waits(calibratingAt, first, 1) + 1) && connected
  }

  /** A NavX that is still calibrating when the retry budget is spent fails the check. */
  lemma StuckCalibrationFails(calibratingAt: nat -> bool, first: nat, connected: bool)
    requires forall k :: first <= k <= first + MaxTries ==> calibratingAt(k)
    ensures Waits(calibratingAt, first, 1) == MaxTries - 1
    ensures !CalibrationSucceeds(calibratingAt, first, connected)
  {
    WaitsBounded(calibratingAt, first, 1);
  }

  /**
   * A NavX that reports calibrating on exactly the first n polls, n within the budget, and then
   * stays settled, passes the check exactly when it is connected.
   */
  lemma SettledCalibrationSucceeds(calibratingAt: nat -> bool, first: nat, n: nat, connected: bool)
    requires n <= MaxTries
    requires forall k :: first <= k < first + n ==> calibratingAt(k)
    requires forall k :: first + n <= k ==> !calibratingAt(k)
    ensures CalibrationSucceeds(calibratingAt, first, connected) == connected
  {
    WaitsForSettling(calibratingAt, first, 1, n);
  }

  class Gyro {
    const pigeon: Pigeon2
    const navX: AHRS
    var usePigeon: bool
    var yawOffsetPigeon2: real
    var yawOffsetNavX: real

    /** The sensors are the robot's own hardware; their results are handed in here. */
    constructor (usePigeon: bool, pigeon: Pigeon2, navX: AHRS)
      modifies pigeon`yaw, pigeon`resets, navX`yaw, navX`resets, navX`polls
      ensures this.pigeon == pigeon && this.navX == navX
      ensures this.usePigeon == usePigeon
      ensures navX.polls == old(navX.polls) + Waits(navX.calibratingAt, old(navX.polls), 1) + 2
      ensures pigeon.resets == old(pigeon.resets) + 1 && navX.resets == old(navX.resets) + 1
      ensures yawOffsetPigeon2 == 0.0 && yawOffsetNavX == navX.yawAfterReset
      ensures GetYawNavX() == 0.0
      ensures GetYawPigeon2() == pigeon.yawAfterReset
    {
      this.pigeon := pigeon;
      this.navX := navX;
      new;
      var _ := CalibrateNavX();
      SetYaw(0.0);
      this.usePigeon := usePigeon;
    }

    /** Re-zeroes both sensors, whichever is selected, so that each reports degreesCcw now. */
    method SetYaw(degreesCcw: real)
      modifies this`yawOffsetPigeon2, this`yawOffsetNavX, pigeon`yaw, pigeon`resets, navX`yaw, navX`resets
      ensures pigeon.resets == old(pigeon.resets) + 1 && navX.resets == old(navX.resets) + 1
      ensures pigeon.yaw == pigeon.yawAfterReset && navX.yaw == navX.yawAfterReset
      ensures yawOffsetPigeon2 == degreesCcw
      ensures yawOffsetNavX == degreesCcw + navX.yawAfterReset
      ensures GetYawNavX() == degreesCcw
      ensures GetYawPigeon2() == degreesCcw + pigeon.yawAfterReset
    {
      pigeon.Reset();
      navX.Reset();
      yawOffsetPigeon2 := degreesCcw;
      yawOffsetNavX := degreesCcw + navX.yaw;
    }

    /** Pigeon2 heading, counterclockwise positive: the raw yaw plus its offset. */
    function GetYawPigeon2(): (yaw: real)
      reads this, pigeon
      ensures yaw - yawOffsetPigeon2 == pigeon.yaw
    {
      pigeon.yaw + yawOffsetPigeon2
    }

    /** NavX heading, counterclockwise positive: the NavX counts clockwise, so its raw yaw is negated. */
    function GetYawNavX(): (yaw: real)
      reads this, navX
      ensures yaw - yawOffsetNavX == -navX.yaw
    {
      -navX.yaw + yawOffsetNavX
    }

    function GetYaw(): (yaw: real)
      reads this, pigeon, navX
      ensures usePigeon ==> yaw == pigeon.yaw + yawOffsetPigeon2
      ensures !usePigeon ==> yaw == yawOffsetNavX - navX.yaw
    {
      if usePigeon then GetYawPigeon2() else GetYawNavX()
    }

    /** Roll of the selected sensor, raw: no offset applies to roll. */
    function GetRoll(): (roll: real)
      reads this, pigeon, navX
      ensures usePigeon ==> roll == pigeon.roll
      ensures !usePigeon ==> roll == navX.roll
    {
      if usePigeon then pigeon.roll else navX.roll
    }

    /** Pitch of the selected sensor, raw: no offset applies to pitch. */
    function GetPitch(): (pitch: real)
      reads this, pigeon, navX
      ensures usePigeon ==> pitch == pigeon.pitch
      ensures !usePigeon ==> pitch == navX.pitch
    {
      if usePigeon then pigeon.pitch else navX.pitch
    }

    method ToggleGyro()
      modifies this`usePigeon
      ensures usePigeon == !old(usePigeon)
    {
      usePigeon := !usePigeon;
    }

    /**
     * Waits (without the sleeps) while the NavX reports calibrating, at most until nTries reaches
     * MaxTries, then reports whether the NavX has settled and is connected.
     */
    method CalibrateNavX() returns (ok: bool)
      modifies navX`polls
      ensures navX.polls == old(navX.polls) + Waits(navX.calibratingAt, old(navX.polls), 1) + 2
      ensures ok == CalibrationSucceeds(navX.calibratingAt, old(navX.polls), navX.connected)
    {
      ghost var first := navX.polls;
      var nTries := 1;
      ok := true;
      var calibrating := navX.IsCalibrating();
      while calibrating && nTries < MaxTries
        invariant 1 <= nTries <= MaxTries
        invariant navX.polls == first + nTries
        invariant calibrating == navX.calibratingAt(first + nTries - 1)
        invariant Waits(navX.calibratingAt, first, 1) == nTries - 1 + Waits(navX.calibratingAt, first + nTries - 1, nTries)
        decreases MaxTries - nTries
      {
        nTries := nTries + 1;
        calibrating := navX.IsCalibrating();
      }
      calibrating := navX.IsCalibrating();
      if calibrating {
        ok := false;
      } else if !navX.connected {
        ok := false;
      }
    }
  }
}
