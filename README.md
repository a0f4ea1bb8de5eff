# Mechanism control of a swerve robot, modelled in Dafny

This project models the robot code's own control logic for its mechanisms. It does not cover the
drivetrain, which the code hands to library kinematics and pose estimation. The parts modelled are:

- the heading subsystem, with two sensors (Pigeon2 and NavX), one selected source, per-sensor yaw
  offsets, a manual toggle and a bounded wait for NavX calibration at startup;
- the wrist's bang-bang hold controller and the plain second wrist;
- the wrist commands: go to a position, and run at a speed with a soft-limit override latch;
- the shoulder's default command, which maps the two trigger axes to an RPM;
- the shooter pair (motors run in opposite directions), the shoot command, and the three-motor Shooter2;
- the tuning variables, with defaults layered over the persistent preferences store.

Every Java `double` is an exact `real`. The code stores, negates, compares and multiplies these
values by constants. It also adds and subtracts them: the NavX offset in `setYaw` (Gyro.java:38),
raw yaw plus offset in `getYawPigeon2` and `getYawNavX` (Gyro.java:42, :45), and the hold error in
`Wrist.periodic` (Wrist.java:64). `Units.degreesToRotations(2.0)` is the constant `2.0 / 360.0`.

Hardware is in module `Platform`. Each motor controller records the last speed command it got
(`setpoint`), its soft-limit flag and the list of every call made on it (`calls`). Sensors, the Xbox
controller and button triggers expose their raw readings as fields that the environment sets. Two
device behaviours that the robot code cannot see are made into readings:

- what a sensor reports right after a reset (`yawAfterReset`);
- the answer to the k-th `isCalibrating` poll of the NavX (`calibratingAt(k)`).

The persistent `Preferences` store is a `map<string, real>`.

Files: `Platform.dfy` (devices), `Wrappers.dfy` (Result), one file per Java source file of the
core, and `Scenarios.dfy`. The scenarios are call sequences as the scheduler makes them, and they
show what the contracts let a caller conclude.

Two behaviours of the heading code are worth stating outright:

- No automatic fallback. `calibrateNavX` returns false and prints "will use Pigeon2" when the NavX
  is still calibrating or not connected (Gyro.java:101-106). The constructor discards that result
  (Gyro.java:28) and always selects its `usePigeon` argument (Gyro.java:31).
  `GyroSubsystem.Gyro.constructor` states this.
- Re-zeroing. Right after `setYaw` the NavX reads the requested yaw, in exact arithmetic (see
  "Floating point" under "Left out"). The Pigeon2 reads the requested yaw plus the raw yaw it
  reports after its reset. So the two sources agree right after `setYaw` only when the Pigeon2
  reads 0 after its reset.

## Model

| member | source | states |
|---|---|---|
| GyroSubsystem.WaitsBounded | src/main/java/frc/robot/subsystems/Gyro.java:82-95 | the calibration loop body runs at most 99 times; each poll that kept the loop going reported "calibrating"; an early exit means the last poll reported "settled" |
| GyroSubsystem.WaitsForSettling | src/main/java/frc/robot/subsystems/Gyro.java:82-95 | a NavX that reports calibrating on exactly its first n polls makes the loop body run min(n, 99) times |
| GyroSubsystem.StuckCalibrationFails | src/main/java/frc/robot/subsystems/Gyro.java:84-107 | a NavX still calibrating after the retry budget uses all 99 waits and fails the check, whether connected or not |
| GyroSubsystem.SettledCalibrationSucceeds | src/main/java/frc/robot/subsystems/Gyro.java:84-108 | a NavX that settles within the budget and stays settled passes the check exactly when it is connected |
| GyroSubsystem.Gyro.CalibrateNavX | src/main/java/frc/robot/subsystems/Gyro.java:80-109 | polls isCalibrating once per loop check plus once at the end; returns true exactly when the final poll says "not calibrating" and the NavX is connected |
| GyroSubsystem.Gyro.constructor | src/main/java/frc/robot/subsystems/Gyro.java:24-32 | runs the calibration wait and ignores its result, zeroes both sensors, and the selected source is always the usePigeon argument |
| GyroSubsystem.Gyro.SetYaw | src/main/java/frc/robot/subsystems/Gyro.java:34-46 | resets both sensors and rewrites both offsets whatever the selection; afterwards, in exact arithmetic, the NavX yaw is the requested value and the Pigeon2 yaw is that value plus the Pigeon2's post-reset raw yaw; the selection is unchanged |
| GyroSubsystem.Gyro.GetYawPigeon2 | src/main/java/frc/robot/subsystems/Gyro.java:41-43 | the raw Pigeon2 yaw plus its offset |
| GyroSubsystem.Gyro.GetYawNavX | src/main/java/frc/robot/subsystems/Gyro.java:44-46 | the negated raw NavX yaw plus its offset, so a clockwise-counting sensor reads counterclockwise-positive |
| GyroSubsystem.Gyro.GetYaw | src/main/java/frc/robot/subsystems/Gyro.java:41-53 | the Pigeon2 raw yaw plus its offset when the Pigeon2 is selected, otherwise the negated NavX raw yaw plus its offset |
| GyroSubsystem.Gyro.GetRoll | src/main/java/frc/robot/subsystems/Gyro.java:55-61 | the selected sensor's raw roll, with no offset |
| GyroSubsystem.Gyro.GetPitch | src/main/java/frc/robot/subsystems/Gyro.java:63-69 | the selected sensor's raw pitch, with no offset |
| GyroSubsystem.Gyro.ToggleGyro | src/main/java/frc/robot/subsystems/Gyro.java:71-73 | flips the selection and changes nothing else |
| WristSubsystem.HoldSpeed | src/main/java/frc/robot/subsystems/Wrist.java:64-71 | the speed is positive exactly when the error exceeds 2/360 rotation, negative exactly when it is below -2/360, and 0 inside the deadband; it is one of 0.40, -0.05 and 0, and it never pushes away from the target |
| WristSubsystem.Wrist.constructor | src/main/java/frc/robot/subsystems/Wrist.java:12-30 | a new wrist is not holding and has stored speed 0; its motor is set to brake and both soft limits are set and enabled, in that order |
| WristSubsystem.Wrist.GetPosition | src/main/java/frc/robot/subsystems/Wrist.java:36-38 | the motor encoder's position |
| WristSubsystem.Wrist.SetPercentSpeed | src/main/java/frc/robot/subsystems/Wrist.java:40-43 | stores the speed and cancels holding, without sending anything to the motor |
| WristSubsystem.Wrist.HoldCurrentPosition | src/main/java/frc/robot/subsystems/Wrist.java:45-47 | enters holding mode with the current encoder position as target |
| WristSubsystem.Wrist.HoldPosition | src/main/java/frc/robot/subsystems/Wrist.java:49-53 | enters holding mode with the given target and leaves the stored speed unchanged |
| WristSubsystem.Wrist.Periodic | src/main/java/frc/robot/subsystems/Wrist.java:60-74 | when holding, the stored speed becomes HoldSpeed(target - position); otherwise it is kept; either way exactly that speed is sent to the motor |
| Wrist2Subsystem.Wrist2.constructor | src/main/java/frc/robot/subsystems/Wrist2.java:17-25 | a new Wrist2 has stored speed 0, brake mode and both soft limits set and enabled |
| Wrist2Subsystem.Wrist2.GetPosition | src/main/java/frc/robot/subsystems/Wrist2.java:48-50 | the motor encoder's position |
| Wrist2Subsystem.Wrist2.SetPercentSpeed | src/main/java/frc/robot/subsystems/Wrist2.java:33-35 | stores the speed exactly as given, with no range check |
| Wrist2Subsystem.Wrist2.Stop | src/main/java/frc/robot/subsystems/Wrist2.java:41-43 | the stored speed becomes 0 |
| Wrist2Subsystem.Wrist2.Periodic | src/main/java/frc/robot/subsystems/Wrist2.java:68-71 | sends the stored speed and changes no stored state |
| WristGoToPositionCommand.ChooseSpeed | src/main/java/frc/robot/commands/WristGoToPosition.java:19-24 | fails exactly for a negative magnitude; otherwise the speed has that magnitude, is positive exactly when the target is above the start and the magnitude is nonzero, and is negative exactly when the target is not above the start and the magnitude is nonzero |
| WristGoToPositionCommand.WristGoToPosition.constructor | src/main/java/frc/robot/commands/WristGoToPosition.java:22-25 | for a nonnegative magnitude, stores wrist and target, and the speed is ChooseSpeed of the magnitude, the target and the wrist position now |
| WristGoToPositionCommand.WristGoToPosition.Create | src/main/java/frc/robot/commands/WristGoToPosition.java:18-26 | the constructor: an error for a negative magnitude, otherwise a command whose speed is fixed from the wrist position at construction |
| WristGoToPositionCommand.FinishedAtStart | src/main/java/frc/robot/commands/WristGoToPosition.java:24-52 | a new command is finished at once exactly when the wrist is at the target, or the target is below and the speed is 0; so a command at its target with nonzero speed ends immediately |
| WristGoToPositionCommand.FinishedBeyondTarget | src/main/java/frc/robot/commands/WristGoToPosition.java:24-52 | with a nonzero speed the command is finished exactly when the wrist is at or past the target in the direction fixed at construction |
| WristGoToPositionCommand.WristGoToPosition.Initialize | src/main/java/frc/robot/commands/WristGoToPosition.java:30-32 | sets the chosen speed on the wrist, which also cancels holding |
| WristGoToPositionCommand.WristGoToPosition.End | src/main/java/frc/robot/commands/WristGoToPosition.java:43-45 | sets wrist speed 0, which also cancels holding |
| WristGoToPositionCommand.WristGoToPosition.IsFinished | src/main/java/frc/robot/commands/WristGoToPosition.java:49-55 | with speed at least 0, finished exactly when position >= target; otherwise exactly when position <= target |
| SetWristPercentSpeedCommand.SoftLimitCalls | src/main/java/frc/robot/commands/SetWristPercentSpeed.java:49-56 | at most one motor call; a disable exactly on a false-to-true change, an enable exactly on a true-to-false change, nothing when the trigger agrees with the latch |
| SetWristPercentSpeedCommand.LatchRunAlternates | src/main/java/frc/robot/commands/SetWristPercentSpeed.java:48-57 | over any sequence of execute calls, one soft-limit call is made per trigger change and the calls alternate between disable and enable |
| SetWristPercentSpeedCommand.ExecuteRun | src/main/java/frc/robot/commands/SetWristPercentSpeed.java:48-57 | a run of execute calls, with the trigger reading the values of a trace in order, sends the motor exactly LatchRun of that trace and leaves the latch at the last trigger value; with LatchRunAlternates, that is one call per trigger change, alternating between disable and enable |
| SetWristPercentSpeedCommand.SetWristPercentSpeed.constructor | src/main/java/frc/robot/commands/SetWristPercentSpeed.java:22-28 | stores wrist and speed, with no trigger and the latch clear |
| SetWristPercentSpeedCommand.SetWristPercentSpeed.WithOverride | src/main/java/frc/robot/commands/SetWristPercentSpeed.java:35-38 | the same, plus the given override trigger |
| SetWristPercentSpeedCommand.SetWristPercentSpeed.Initialize | src/main/java/frc/robot/commands/SetWristPercentSpeed.java:42-44 | sets the configured speed on the wrist |
| SetWristPercentSpeedCommand.SetWristPercentSpeed.Execute | src/main/java/frc/robot/commands/SetWristPercentSpeed.java:48-57 | afterwards the latch equals the trigger value; the motor got exactly SoftLimitCalls(new, old); without a trigger no motor call is ever made |
| SetWristPercentSpeedCommand.SetWristPercentSpeed.End | src/main/java/frc/robot/commands/SetWristPercentSpeed.java:61-63 | sets wrist speed 0 and leaves the motor, and so its soft limits, untouched |
| SetWristPercentSpeedCommand.SetWristPercentSpeed.IsFinished | src/main/java/frc/robot/commands/SetWristPercentSpeed.java:67-69 | never finishes on its own |
| ArmCommands.ShoulderRPM | src/main/java/frc/robot/commands/DefaultArmCommand.java:33-41 | positive exactly when only the right trigger is pressed, and then right*24; negative exactly when only the left one is, and then -left*24; 0 when both or neither are pressed; within [-24, 24] for axes in [0, 1] |
| ArmCommands.Shoulder.constructor | src/main/java/frc/robot/subsystems/Shoulder.java:14-32 | two distinct new motors, neither sent a speed command |
| ArmCommands.DefaultArmCommand.constructor | src/main/java/frc/robot/commands/DefaultArmCommand.java:16-22 | the desired RPM starts at 0 |
| ArmCommands.DefaultArmCommand.Execute | src/main/java/frc/robot/commands/DefaultArmCommand.java:30-44 | stores ShoulderRPM of the current trigger readings and sends it to the shoulder motor on every call |
| ArmCommands.DefaultArmCommand.End | src/main/java/frc/robot/commands/DefaultArmCommand.java:48-50 | the shoulder's master motor gets exactly one call, 0 percent speed |
| ArmCommands.DefaultArmCommand.IsFinished | src/main/java/frc/robot/commands/DefaultArmCommand.java:54-56 | never finishes on its own |
| ShooterSubsystem.Shooter.constructor | src/main/java/frc/robot/subsystems/Shooter.java:17-44 | the stored speed and RPM start at 0; each motor got exactly one command, 0 RPM, and the two mirror each other |
| ShooterSubsystem.Shooter.SetRPM | src/main/java/frc/robot/subsystems/Shooter.java:50-54 | stores r, commands the left motor r RPM and the right motor -r RPM |
| ShooterSubsystem.Shooter.SetPercentSpeed | src/main/java/frc/robot/subsystems/Shooter.java:56-60 | stores p, commands the left motor +p and the right motor -p |
| ShooterSubsystem.Shooter.Periodic | src/main/java/frc/robot/subsystems/Shooter.java:63-71 | with debug on, applies the dashboard speed p through SetPercentSpeed: each motor gets exactly one call, +p on the left and -p on the right, so the motors still mirror each other |
| ShootCommand.Shoot.constructor | src/main/java/frc/robot/commands/Shoot.java:14-18 | stores the negation of its RPM argument |
| ShootCommand.Shoot.Initialize | src/main/java/frc/robot/commands/Shoot.java:22-24 | calls setRPM with the stored value: the left motor gets exactly one call, -RPM, and the right one +RPM |
| ShootCommand.Shoot.Execute | src/main/java/frc/robot/commands/Shoot.java:28 | changes nothing |
| ShootCommand.Shoot.End | src/main/java/frc/robot/commands/Shoot.java:32-34 | each shooter motor gets exactly one call, 0 percent speed |
| ShootCommand.Shoot.IsFinished | src/main/java/frc/robot/commands/Shoot.java:38-40 | never finishes on its own |
| Shooter2Subsystem.Shooter2.constructor | src/main/java/frc/robot/subsystems/Shooter2.java:23-36 | three distinct new motors, none sent a command |
| Shooter2Subsystem.Shooter2.SetMainRollerPercentSpeedForIntake | src/main/java/frc/robot/subsystems/Shooter2.java:42-45 | each roller gets exactly one call, p, so they are equal; the indexer is left alone |
| Shooter2Subsystem.Shooter2.SetIndexerPercentSpeedForIntake | src/main/java/frc/robot/subsystems/Shooter2.java:50-52 | the indexer gets exactly one call, p; the rollers are left alone |
| Shooter2Subsystem.Shooter2.SetMainRollerPercentSpeedForShooting | src/main/java/frc/robot/subsystems/Shooter2.java:58-62 | each roller gets exactly one call, -p, so they are equal; the indexer is left alone |
| Shooter2Subsystem.Shooter2.SetIndexerPercentSpeedForShooting | src/main/java/frc/robot/subsystems/Shooter2.java:67-70 | the indexer gets exactly one call, -p; the rollers are left alone |
| Shooter2Subsystem.Shooter2.StopMainRoller | src/main/java/frc/robot/subsystems/Shooter2.java:74-76 | each roller gets exactly one call, 0 percent; the indexer is left alone |
| Shooter2Subsystem.Shooter2.StopIndexer | src/main/java/frc/robot/subsystems/Shooter2.java:79-81 | the indexer gets exactly one call, 0 percent; the rollers are left alone |
| Tuning.TuningVariable.DefaultValue | src/main/java/frc/robot/TuningVariables.java:29-59 | every listed variable's default is 1 |
| Tuning.NamesDistinct | src/main/java/frc/robot/TuningVariables.java:29-48 | each variable's preferences key is its own constant name, and no two variables share a key |
| Tuning.ValuesListsEach | src/main/java/frc/robot/TuningVariables.java:78-88 | values() lists every variable exactly once |
| Tuning.DefaultsOfValue | src/main/java/frc/robot/TuningVariables.java:29-48 | in the map of defaults built from a list of variables, each listed variable's name maps to its own default, since no two variables share a name |
| Tuning.Get | src/main/java/frc/robot/TuningVariables.java:65-67 | the stored value for the variable's name, or its default when the key is missing |
| Tuning.Seed | src/main/java/frc/robot/TuningVariables.java:58-63 | writes the default only when the key is absent; an existing stored value is kept |
| Tuning.SeedAll | src/main/java/frc/robot/TuningVariables.java:29-63 | seeding every variable in declaration order gives the defaults overlaid by every previously stored value |
| Tuning.SeedingKeepsReadings | src/main/java/frc/robot/TuningVariables.java:58-67 | after seeding every key of the enum is present, and no variable reads a different value than before |
| Tuning.Set | src/main/java/frc/robot/TuningVariables.java:69-71 | writes only the variable's own key; get then returns the value written |
| Tuning.SetLeavesOthers | src/main/java/frc/robot/TuningVariables.java:65-71 | a set followed by get returns the value set, and every other variable reads as before |
| Tuning.SetToDefaultValue | src/main/java/frc/robot/TuningVariables.java:73-75 | writes the default under the variable's key; get then returns the default |
| Tuning.SetAllToDefaultValues | src/main/java/frc/robot/TuningVariables.java:77-81 | overlays every enum variable's default on the store; keys outside the enum keep their presence and value |
| Tuning.SetAllReadsDefaults | src/main/java/frc/robot/TuningVariables.java:65-81 | after setting all to defaults every variable's get equals its default |
| Tuning.Remove | src/main/java/frc/robot/TuningVariables.java:83-85 | deletes the variable's key; get then returns the default |
| Tuning.RemoveAllKnown | src/main/java/frc/robot/TuningVariables.java:87-91 | deletes exactly the enum's keys and nothing else |
| Tuning.RemoveAllReadsDefaults | src/main/java/frc/robot/TuningVariables.java:65-91 | after removing all known keys every variable reads its default |
| Scenarios.ToggleTwice | src/main/java/frc/robot/subsystems/Gyro.java:47-53 | toggling twice restores the selection and the reported yaw |
| Scenarios.RezeroThenToggle | src/main/java/frc/robot/subsystems/Gyro.java:34-53 | when the Pigeon2 reset zeroes its raw yaw, both per-sensor headings equal the requested yaw after setYaw, so the heading reported after the toggle is the requested yaw whichever source ends up selected |
| Scenarios.HoldThenSetSpeed | src/main/java/frc/robot/subsystems/Wrist.java:40-74 | an explicit speed command cancels a hold, and the next periodic sends that speed |
| Scenarios.Wrist2RepeatedPeriodic | src/main/java/frc/robot/subsystems/Wrist2.java:68-71 | two periodic calls send the same stored speed twice |
| Scenarios.NoTriggerNoSoftLimitCalls | src/main/java/frc/robot/commands/SetWristPercentSpeed.java:22-28 | a command built without a trigger never makes a soft-limit call, however often it executes |
| Scenarios.HoldAndReleaseOverride | src/main/java/frc/robot/commands/SetWristPercentSpeed.java:48-57 | holding the trigger over several executes disables the soft limits once; releasing it enables them once |
| Scenarios.ShootLifecycle | src/main/java/frc/robot/commands/Shoot.java:14-40 | a shot at RPM followed by its end sends the left motor -RPM then 0 percent and the right motor +RPM then 0 percent, and the shooter's stored RPM is -RPM |
| Scenarios.Shooter2SeparateMotors | src/main/java/frc/robot/subsystems/Shooter2.java:42-81 | main-roller calls never change the indexer's command |

## Left out

- Swerve drive kinematics, desaturation, module control and pose estimation: the code hands them to
  kinematics and estimator classes implemented in WPILib, and `SwerveModule` is not part of this model.
- Command scheduling, button bindings, autonomous routines and `Shooter2.shoot2Command`: they are
  scheduler and threading behaviour (`Object.wait`, command composition).
- `Thread.sleep` and console printing, which change no state the code reads: the sleeps and prints
  in `calibrateNavX` (Gyro.java:86-87, :93, :97, :102, :105), the print in the `Wrist` constructor
  (Wrist.java:25) and in `Wrist.holdPosition` (Wrist.java:50), the print that is the whole of
  `WristGoToPosition.execute` (WristGoToPosition.java:37-38), the print in
  `WristGoToPosition.isFinished` (WristGoToPosition.java:53), and the warning printed by
  `DefaultArmCommand.execute` when both triggers are pressed (DefaultArmCommand.java:34).
- `DefaultArmCommand.initialize` is empty.
- Dashboard output in `Gyro.periodic` and `Shooter.periodic`. The dashboard read in
  `Shooter.periodic` is a parameter of `Shooter.Periodic`.
- The SparkMax motor driver and its soft-limit enforcement, PID loops, follower setup and the
  Pigeon2 configuration: foreign hardware code. The model records the commands sent instead.
  `SparkMaxMotor` keeps one soft-limit flag for both directions.
- The Pigeon2 and NavX drivers: their resets and calibration are foreign. Their observable results
  are readings that the environment sets. The sensors are handed to the `Gyro` constructor instead
  of being created there.
- `Wrist.setCurrentPositionAsZeroEncoderPosition`, `Wrist2.setCurrentPositionAsZeroEncoderPosition`,
  `Wrist2.getVelocity`, `Shooter.getLeftVelocity`, `Shooter.getRightVelocity`: they forward to the
  motor driver, which is not modelled. `Wrist2.getSparkMaxMotor` is the `motor` field. The `Wrist`
  model has the same `motor` field, because `SetWristPercentSpeed` reaches the wrist's motor
  through `getSparkMaxMotor`, which Wrist.java does not define.
- The soft-limit values and CAN ids live in `Constants.java`, which is not part of this model. The
  wrist constructors take the two soft limits as parameters.
- Shoulder, SetShoulderSpeed and SetShoulderVoltage: they forward constants to the motor driver.
  `ArmCommands.Shoulder` keeps only the two motors, because `DefaultArmCommand` commands the left one.
- Floating point: values are exact `real`s, and Java's additions and subtractions of doubles can
  round. So equalities the model proves, such as `getYawNavX() == d` right after `setYaw(d)` (whose
  Java value is `-r + (d + r)` for the raw NavX yaw r), hold in Java only up to the last bits of a
  double; for d = 0, as in the constructor, the Java value is exactly 0. Java's `-0.0` equals `0.0`
  in every comparison the code makes.
- `getBoolean`, `removeAllPreferences` and the variables `useShooter2`, `useWrist2` and
  `useCollectorRoller`, which `RobotContainer.java` uses but TuningVariables.java does not define.
  `TuningVariables` is modelled as TuningVariables.java has it.
