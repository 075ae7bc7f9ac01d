# PiPER VR teleoperation: joint integrator, telemetry and command conversion

This project models the control path of a teleoperated PiPER six-joint arm. It proves properties of that model.

- **PiperIK module.** The Unity solver script `PiperIK` is a class over six-entry arrays:
  - it records joint limits in `Start` and installs velocity caps;
  - in each `SolveIK` iteration it clamps, limits and smooths every joint's command, and writes it back to the joint's drive;
  - it stops at the first iteration within both tolerances, or after ten.

  The class keeps the invariant `preAngle == angle == drive target`. The module also has the angle wrap `WrapAngle`, the gripper-gap reader and the tag-gated `FixedUpdate`.
- **UnityMath module.** The Unity engine calls the scripts rely on: `Mathf.Clamp`, `Lerp`, `InverseLerp`, `RoundToInt`, `Repeat`, `DeltaAngle` and `MoveTowardsAngle`, and the `ArticulationBody` drive.
- **UnityPythonTcp module.** The telemetry producer `Unity_Python_TCP`:
  - sanitises non-finite angles;
  - maps the gripper gap to the robot's jaw units;
  - numbers and caches a snapshot each tick;
  - answers every `get` request line with the cached snapshot.
- **PiperMove module.** The robot-side client `Piper_Move.py`. It turns a decoded snapshot into one joint command in integer millidegrees and one gripper command.
- **VRMove module.** The hand-tracking script `VR_Move`. It maps the thumb-to-index distance to two mirrored gripper-jaw targets, which the drives follow smoothly.

Every quantity is an exact `real`. Finiteness is a tag (`UnityMath.Float`). The optional limits are `Option` values. The SDK calls are returned as command records.

Several inputs are parameters of the model. The damped least-squares solve provides the joint velocities, and the convergence check provides the measured distance and rotation angle, all through `PiperIK.IterationInput`. The hand-tracking follow factor `1 - exp(-followSmooth * dt)` is a parameter `alpha` in [0, 1). The JSON decoding done by `json.loads` is a parameter of `UnityGetDate`.

`SolveIK`'s early `return` is written as `SolveLoop`'s loop condition. Each solver iteration is `RunIteration`, and each run of the outer loop is `Iterate`. A joint's state across a whole solve is specified by the recursive function `PiperIK.RunJoint`; the class methods are proved against it.

## Model

| member | source | states |
|---|---|---|
| PiperIK.WrapAngle | PiPER_Unity/Assets/Scripts/PiperIK.cs:239-245 | the result lies in [-180, 180] and differs from the input by a whole number of turns; an input already in [-180, 180] is returned unchanged |
| PiperIK.WrapAngleIdempotent | PiPER_Unity/Assets/Scripts/PiperIK.cs:239-245 | wrapping a wrapped angle changes nothing |
| PiperIK.WrapAngleEndpoints | PiPER_Unity/Assets/Scripts/PiperIK.cs:241-243 | both 180 and -180 are fixed points, so the range is closed at both ends |
| PiperIK.Remainder360 | PiPER_Unity/Assets/Scripts/PiperIK.cs:241 | C#'s angle % 360: the result has the angle's sign, is less than a whole turn in absolute value, and differs from the angle by a whole number of turns |
| UnityMath.Trunc | PiPER_Unity/Assets/Scripts/PiperIK.cs:241 | truncation toward zero, which C#'s float remainder uses for its quotient: within one unit of the input, on the side of zero |
| PiperIK.ReadAB | PiPER_Unity/Assets/Scripts/PiperIK.cs:76-89 | a missing body reads 0; otherwise a finite drive target wins, then a finite first joint coordinate, otherwise 0 |
| PiperIK.GetGripperPosition | PiPER_Unity/Assets/Scripts/PiperIK.cs:72-101 | the gap is in [0, 0.07]; it is 0 when both jaws are missing; otherwise it is the jaws' distance, capped at 0.07 |
| UnityMath.Abs | PiPER_Unity/Assets/Scripts/PiperIK.cs:94 | Mathf.Abs: non-negative, and either the value or its negation |
| UnityMath.Min | PiPER_Unity/Assets/Scripts/PiperIK.cs:98 | Mathf.Min: no larger than either argument, and one of them |
| PiperIK.RecordedLimits | PiPER_Unity/Assets/Scripts/PiperIK.cs:122-131 | limits are recorded exactly when lower < upper, both with the drive's values; otherwise both stay absent |
| PiperIK.CapsOf | PiPER_Unity/Assets/Scripts/PiperIK.cs:166-177 | the smoothing cap abs(maxVelocity) * dt is never negative; ordered velocity caps give ordered step caps |
| PiperIK.DefaultCaps | PiPER_Unity/Assets/Scripts/PiperIK.cs:134 | after SetLimitVelocity(-60, 60) a step lies in [-60 dt, 60 dt] and a turn is at most 60 dt; below dt = 3 s the caps are less than half a turn |
| PiperIK.RawChange | PiPER_Unity/Assets/Scripts/PiperIK.cs:166 | a joint velocity in radians per second over a positive step gives a change in degrees of the same sign; a zero step or velocity gives no change |
| PiperIK.AngleChange | PiPER_Unity/Assets/Scripts/PiperIK.cs:166-167 | with ordered caps the change lies in [minAngleVelocity dt, maxAngleVelocity dt]; a raw change already inside is kept |
| PiperIK.NewAngle | PiPER_Unity/Assets/Scripts/PiperIK.cs:169-172 | when both limits are present and ordered, newAngle lies within them and equals preAngle + angleChange whenever that lies inside; when either is absent, newAngle is exactly preAngle + angleChange |
| UnityMath.Clamp | PiPER_Unity/Assets/Scripts/PiperIK.cs:167 | with min <= max the result lies in [min, max]; a value inside is kept, a value below min gives min, and otherwise a value above max gives max |
| UnityMath.MoveTowardsAngle | PiPER_Unity/Assets/Scripts/PiperIK.cs:177 | the result is at most maxDelta from current as an angle (DeltaAngle), not as a raw difference; a target within reach is reached up to whole turns |
| UnityMath.Sign | PiPER_Unity/Assets/Scripts/PiperIK.cs:177 | Mathf.Sign: 1 for zero and positive values, -1 for negative ones |
| UnityMath.Repeat | PiPER_Unity/Assets/Scripts/PiperIK.cs:177 | Mathf.Repeat by a positive length lies in [0, length] |
| UnityMath.DeltaAngle | PiPER_Unity/Assets/Scripts/PiperIK.cs:177 | Mathf.DeltaAngle: the signed turn from current to target, in (-180, 180], differing from target - current by whole turns |
| UnityMath.MoveTowards | PiPER_Unity/Assets/Scripts/PiperIK.cs:177 | Mathf.MoveTowards with a non-negative step: the result lies between current and target, at most maxDelta from current, and is the target once within reach |
| UnityMath.DeltaAngleTriangle | PiPER_Unity/Assets/Scripts/PiperIK.cs:177 | the angular distance obeys the triangle inequality |
| PiperIK.JointStep | PiPER_Unity/Assets/Scripts/PiperIK.cs:166-179 | the drive target one iteration writes is at most abs(maxAngleVelocity) dt from the previous target, as an angle |
| PiperIK.JointStepWithinLimits | PiPER_Unity/Assets/Scripts/PiperIK.cs:169-182 | with modest caps and a synced joint inside its limits, the written target stays inside the limits |
| PiperIK.WithinTolerance | PiPER_Unity/Assets/Scripts/PiperIK.cs:184-188 | the check after one joint's update passes when the distance is below d_tolerance and the angle below r_tolerance |
| PiperIK.Reached | PiPER_Unity/Assets/Scripts/PiperIK.cs:181-191 | reachedTarget at the end of an iteration: every joint's check passed |
| PiperIK.IterationsNeeded | PiPER_Unity/Assets/Scripts/PiperIK.cs:154-195 | a solve of n inputs runs between 1 and n iterations; every iteration before the last failed the check; the last one passed unless all n ran |
| PiperIK.IterationsNeededIsFirstReached | PiPER_Unity/Assets/Scripts/PiperIK.cs:191-194 | stopping after the first iteration that passes (or after the last) is exactly IterationsNeeded |
| PiperIK.IterationsNeededOfFrozenPose | PiPER_Unity/Assets/Scripts/PiperIK.cs:184-188 | when every iteration sees the same measurements, a solve runs one iteration or all of them |
| PiperIK.RunJoint | PiPER_Unity/Assets/Scripts/PiperIK.cs:154-182 | after at least one iteration a joint's previous angle equals its drive target |
| PiperIK.RunJointWithinLimits | PiPER_Unity/Assets/Scripts/PiperIK.cs:171-182 | over any number of iterations, a synced joint inside its limits stays synced and inside them |
| PiperIK.RunJointTurns | PiPER_Unity/Assets/Scripts/PiperIK.cs:154-179 | over m iterations a drive target turns by at most Turns(m, abs(maxAngleVelocity) dt), the sum of m per-iteration caps, as an angle |
| PiperIK.TurnsIsProduct | PiPER_Unity/Assets/Scripts/PiperIK.cs:154-177 | Turns(m, step) is m * step |
| PiperIK.RunJointTurnsPerTick | PiPER_Unity/Assets/Scripts/PiperIK.cs:154-179 | within one FixedUpdate, which runs at most ten iterations, a drive target turns by at most 10 * abs(maxAngleVelocity) dt, as an angle |
| PiperIK.FirstUnassigned | PiPER_Unity/Assets/Scripts/PiperIK.cs:108-116 | the joints before this index are all assigned; the joint at it, if any, is not |
| PiperIK.PiperIK.constructor | PiPER_Unity/Assets/Scripts/PiperIK.cs:11-29 | the field initialisers: six joints, zero angles and caps, no limits, arrays fresh and distinct; the physics timestep is the given one |
| PiperIK.PiperIK.Synced | PiPER_Unity/Assets/Scripts/PiperIK.cs:119-120 | the invariant Start establishes and every joint update keeps (lines 178-182): each joint's preAngle, angle and drive target agree |
| PiperIK.PiperIK.GetJointAnglesDeg | PiPER_Unity/Assets/Scripts/PiperIK.cs:35-38 | a fresh array holding a copy of the commanded angles |
| PiperIK.PiperIK.SetLimitVelocity | PiPER_Unity/Assets/Scripts/PiperIK.cs:295-302 | every joint's minimum and maximum angular velocity become the given ones |
| PiperIK.PiperIK.StartJoint | PiPER_Unity/Assets/Scripts/PiperIK.cs:110-131 | an assigned joint's angle and previous angle become its drive target, and its limits are recorded; the other joints are untouched |
| PiperIK.PiperIK.Start | PiPER_Unity/Assets/Scripts/PiperIK.cs:104-135 | joints before the first unassigned one are set up; later ones are untouched; the caps become -60/60 only when all six are assigned; with all six assigned, preAngle == angle == drive target |
| PiperIK.PiperIK.UpdateJoint | PiPER_Unity/Assets/Scripts/PiperIK.cs:166-182 | the joint's previous angle, angle and drive target all become its JointStep; only the drive's target changes; the other joints are untouched |
| PiperIK.PiperIK.RunIteration | PiPER_Unity/Assets/Scripts/PiperIK.cs:156-189 | every joint takes one JointStep from its own previous angle and drive target; the result is true exactly when every joint's check passed |
| PiperIK.PiperIK.Iterate | PiPER_Unity/Assets/Scripts/PiperIK.cs:154-195 | one outer pass extends every joint's RunJoint by one iteration and leaves the joints synced |
| PiperIK.PiperIK.SolveLoop | PiPER_Unity/Assets/Scripts/PiperIK.cs:154-195 | the loop runs exactly IterationsNeeded iterations (at most ten, stopping after the first that passes) and leaves every drive at RunJoint's value, synced |
| PiperIK.PiperIK.SolveIK | PiPER_Unity/Assets/Scripts/PiperIK.cs:152-196 | with an unassigned joint nothing changes and no iteration runs; otherwise IterationsNeeded iterations run, every joint's drive target ends where RunJoint takes it from the drive and previous angle at the call, and angle, previous angle and drive target agree |
| PiperIK.PiperIK.FixedUpdate | PiPER_Unity/Assets/Scripts/PiperIK.cs:137-150 | a solve happens exactly when both targets are assigned and the tag is "Target", or "Target_VR" while the hand script reports vr_start; otherwise nothing changes |
| UnityMath.InverseLerp | PiPER_Project/Assets/Scripts/Unity_Python_TCP.cs:74 | the ratio is in [0, 1]; for a < b it is 0 at or below a and 1 at or above b |
| UnityMath.Lerp | PiPER_Project/Assets/Scripts/Unity_Python_TCP.cs:76 | the result lies between a and b: a for t <= 0, b for t >= 1 (no extrapolation) |
| UnityMath.RoundHalfEven | PiPER_Project/Assets/Scripts/Unity_Python_TCP.cs:76 | the integer is within one half of the input, and a tie goes to the even neighbour |
| UnityPythonTcp.PiperJaw | PiPER_Project/Assets/Scripts/Unity_Python_TCP.cs:74-76 | piper_jaw is in [0, 80080]: 0 for a gap <= 0, 80080 for a gap >= 0.07 |
| UnityPythonTcp.PiperJawMonotone | PiPER_Project/Assets/Scripts/Unity_Python_TCP.cs:74-76 | a wider gap never gives a smaller piper_jaw |
| UnityPythonTcp.Sanitized | PiPER_Project/Assets/Scripts/Unity_Python_TCP.cs:65-69 | the first six entries become finite, non-finite ones 0 and finite ones unchanged; later entries are untouched |
| UnityPythonTcp.SanitizedIdempotent | PiPER_Project/Assets/Scripts/Unity_Python_TCP.cs:65-69 | sanitising twice is sanitising once |
| UnityPythonTcp.InitialSnapshotIsZero | PiPER_Project/Assets/Scripts/Unity_Python_TCP.cs:20-21 | InitialSnapshot, the initial latestJson, has number 0, six zero target and current angles and jaw 0 |
| UnityPythonTcp.UnityPythonTcp.constructor | PiPER_Project/Assets/Scripts/Unity_Python_TCP.cs:20-21 | seq starts at 0 with the initial snapshot cached |
| UnityPythonTcp.UnityPythonTcp.FixedUpdate | PiPER_Project/Assets/Scripts/Unity_Python_TCP.cs:51-91 | with no solver, or either array null or shorter than 6, nothing changes; otherwise both arrays are sanitised in place, seq grows by exactly 1, and the cached snapshot carries the new seq, the time, both arrays and the mapped jaw |
| UnityPythonTcp.Replies | PiPER_Project/Assets/Scripts/Unity_Python_TCP.cs:118-126 | one reply per "get" line, each the cached snapshot |
| UnityPythonTcp.RepliesAppend | PiPER_Project/Assets/Scripts/Unity_Python_TCP.cs:118-126 | the replies to two batches of lines are the replies to each, in order |
| UnityPythonTcp.RepliesOfOtherLine | PiPER_Project/Assets/Scripts/Unity_Python_TCP.cs:121 | a line other than "get" gets no reply |
| UnityPythonTcp.UnityPythonTcp.Handle | PiPER_Project/Assets/Scripts/Unity_Python_TCP.cs:109-136 | the lines written are exactly Replies of the lines read |
| PiperMove.Get | PiPER_Control/Piper_Move.py:75-77 | dict.get: a value exactly when the data is an object with that key |
| PiperMove.PyFloat | PiPER_Control/Piper_Move.py:82 | float(): numbers convert to themselves and booleans to 1.0 or 0.0; other kinds raise |
| PiperMove.PyInt | PiPER_Control/Piper_Move.py:97 | int(): finite numbers truncate toward zero and booleans give 0 or 1; non-finite numbers and other kinds raise |
| PiperMove.PyIntOfInteger | PiPER_Control/Piper_Move.py:97 | int() of an integral number is that integer |
| PiperMove.SelectAngles | PiPER_Control/Piper_Move.py:73-78 | target_deg when it is a list, else current_deg when it is a list, else nothing |
| PiperMove.FirstSixValues | PiPER_Control/Piper_Move.py:82 | the first six entries as floats, present exactly when every one converts to a finite number |
| PiperMove.MaxAbs | PiPER_Control/Piper_Move.py:83 | the largest absolute value: no entry exceeds it, and some entry attains it |
| PiperMove.Factor | PiPER_Control/Piper_Move.py:84 | 57295.7795 when no value exceeds 3.2 in absolute value, 1000 otherwise |
| PiperMove.Scaled | PiPER_Control/Piper_Move.py:85 | every command is within one half of value times factor |
| PiperMove.ScaledSign | PiPER_Control/Piper_Move.py:85 | every command has its angle's sign, or is 0 |
| PiperMove.PiperJointMove | PiPER_Control/Piper_Move.py:71-90 | a command exactly when a list of at least six convertible angles is selected; it is the scaled first six |
| PiperMove.PiperJointMoveRejects | PiPER_Control/Piper_Move.py:73-80 | a non-object, a missing list or a list shorter than 6 sends nothing |
| PiperMove.PiperJointMovePrefersTarget | PiPER_Control/Piper_Move.py:75-78 | with target_deg a list, current_deg never matters |
| PiperMove.PiperJointMoveUsesFirstSix | PiPER_Control/Piper_Move.py:79-82 | for any other fields, entries after the sixth never change the command, whether they follow target_deg or, when target_deg is not a list, current_deg |
| PiperMove.PiperJointMoveAgreesAboveThreshold | PiPER_Control/Piper_Move.py:84 | when some angle exceeds 3.2 the code and the degree-only conversion agree |
| PiperMove.OneDegreeTakenForRadians | PiPER_Control/Piper_Move.py:83-85 | the pose with joint 1 at 1 degree is commanded as 57296 millidegrees |
| PiperMove.PiperJointMoveDegrees | PiPER_Control/Piper_Move.py:84-85 | the corrected conversion: it sends exactly when the code does, and each command is within one half of the angle times 1000 |
| PiperMove.OneDegreeCorrected | PiPER_Control/Piper_Move.py:83-85 | the corrected conversion commands that pose as 1000 millidegrees |
| PiperMove.PiperGripperMove | PiPER_Control/Piper_Move.py:92-107 | a command exactly when piper_jaw is present and converts; its position is the value, or 0 for a negative one, with speed 1000 and codes 0x01, 0x00 |
| PiperMove.UnityGetDate | PiPER_Control/Piper_Move.py:53-69 | an empty read gives None; otherwise the decoded reply |
| PiperMove.SnapshotJson | PiPER_Project/Assets/Scripts/Unity_Python_TCP.cs:84-88 | the decoded snapshot: target_deg and current_deg are lists of its angles, piper_jaw and seq its numbers |
| PiperMove.GetRequestAnswered | PiPER_Control/Piper_Move.py:55-58 | the client's request line is answered with exactly the cached snapshot |
| PiperMove.GripperOfSnapshot | PiPER_Control/Piper_Move.py:94-104 | a published jaw reaches the gripper command unchanged |
| PiperMove.JointOfSnapshot | PiPER_Control/Piper_Move.py:75-85 | a published snapshot always yields a joint command; the corrected conversion commands its target angles in millidegrees |
| UnityMath.Clamp01 | PiPER_Project/Assets/Scripts/VR_Move.cs:49 | the result is in [0, 1]: 0 for values <= 0, 1 for values >= 1, values inside kept |
| VRMove.OpeningRatio | PiPER_Project/Assets/Scripts/VR_Move.cs:46-49 | t is in [0, 1]: 0 for a distance <= 0.02, 1 for a distance >= 0.12 |
| VRMove.OpeningRatioMonotone | PiPER_Project/Assets/Scripts/VR_Move.cs:48-49 | spreading the fingers never closes the gripper |
| VRMove.JawTargets | PiPER_Project/Assets/Scripts/VR_Move.cs:54-55 | joint 7 runs from its lower to its upper limit, joint 8 from its upper to its lower limit; both stay within their limits |
| VRMove.JawTargetsMirrored | PiPER_Project/Assets/Scripts/VR_Move.cs:54-55 | as t rises, target7 never falls and target8 never rises |
| VRMove.SmoothedTarget | PiPER_Project/Assets/Scripts/VR_Move.cs:65-70 | the new target lies between the old one and the clamped request; an old target within limits gives a new one within them |
| VRMove.VRMove.constructor | PiPER_Project/Assets/Scripts/VR_Move.cs:8-16 | vr_start starts false, with distinct jaws |
| VRMove.VRMove.SetDrive | PiPER_Project/Assets/Scripts/VR_Move.cs:61-72 | only the drive's target changes, to the smoothed value; the limits stay |
| VRMove.VRMove.GripperMoveByFinger | PiPER_Project/Assets/Scripts/VR_Move.cs:44-59 | both jaws take their smoothed mirrored targets, computed from the drives as they were before either write |
| VRMove.VRMove.FixedUpdate | PiPER_Project/Assets/Scripts/VR_Move.cs:31-42 | with a finger or jaw reference missing nothing changes, vr_start included; otherwise vr_start becomes whether the hand is tracked, and the jaws move only when it is |

## Left out

- The damped least-squares solve is not modelled: `GDLSWithSVD`, `CalculateGaussianDampingFactor`, the Jacobian and the pose errors are floating-point linear algebra over engine transforms. Each iteration receives their results (joint velocities, distance, rotation angle) as `IterationInput`. `WrapAngle` is modelled on its own, although its only caller is the rotation error.
- The convergence check compares one distance and one angle per iteration. The code repeats that comparison after each joint update; the transforms do not move inside a `FixedUpdate`, so each repetition sees the same values. The model takes a distance and an angle per joint check, which covers this case; `IterationsNeededOfFrozenPose` states the consequence when the measurements stay the same.
- Single-precision rounding is not modelled: every angle, gap and distance is an exact real.
- `Time.deltaTime` inside `FixedUpdate` is the project's fixed timestep, which the scripts never set. In `PiperIK.PiperIK` it is the constructor's positive `fixedDeltaTime`, the same for every step. The lemmas about `RunJoint`, `JointStep` and the caps hold for every non-negative `dt`.
- PiperIK.PiperIK.SolveIK: with an unassigned joint, the C# code throws a NullReferenceException in `CalculateJacobian`, before any write. The model returns with nothing changed and 0 iterations.
- PiperIK.PiperIK.FixedUpdate: a null `vr` under the "Target_VR" tag throws in C#. The model treats it as no solve.
- PiperIK.PiperIK.SolveLoop: the early `return` inside the loop is written as the loop's exit condition; the iterations run and the state left behind are the same.
- PiperIK.RunJointTurns: one `FixedUpdate` runs up to ten iterations, each moving a drive target by up to abs(maxAngleVelocity) * dt, so one tick can move it ten times that far. `JointStep` bounds one iteration, `RunJointTurns` bounds m of them and `RunJointTurnsPerTick` bounds a whole tick.
- PiperIK.RunJointWithinLimits: containment holds only for a joint whose drive target starts inside its limits. Start copies whatever target the drive has, and the code never brings back a target that starts outside: MoveTowardsAngle takes the shorter way round, which can lead further out.
- PiperIK.PiperIK.constructor: the model requires the six assigned joint bodies to be distinct, and VRMove.VRMove.constructor requires distinct jaws. The scene assigns each body once; the scripts do not check it.
- `GetCurrentAnglesDeg` reads the engine's measured joint positions. It enters the model only as the `currentDeg` array passed to the telemetry tick.
- UnityPythonTcp.UnityPythonTcp.FixedUpdate: a tick without the solver, or with a missing or short angle array, leaves seq unchanged, so seq counts completed ticks.
- UnityPythonTcp.UnityPythonTcp.Handle: the listener, the accept and handler threads, the lock, the `running` flag and `Shutdown` are concurrency and I/O, and are not modelled. Handle answers from one cached snapshot; a snapshot replaced while a connection is open is not modelled.
- The snapshot's JSON text is not modelled: F4 and F6 number formatting, the timestamp string, UTF-8 decoding, `strip` and `json.loads` are records rather than strings. `UnityGetDate` receives the decoded value as a parameter.
- The `seq` check in `Unity_Get_Date` tests whether a string is a dict, which never holds. It is left out as dead code.
- PiperMove.PyFloat: `float()` of a numeric string is not parsed. A string entry is treated as failing to convert; the snapshot never carries strings.
- PiperMove.PyInt: `int()` of a numeric string is not parsed, for the same reason.
- The robot SDK (`JointCtrl`, `GripperCtrl`) becomes returned command records. `Connect_Unity`'s reconnect loop, the sleeps, `Piper_Ready`, `SetZeroPos`, `Piper_Set_MotionCtrl_2` and `main` are hardware and socket I/O.
- VRMove.VRMove.FixedUpdate: the Unity null tests on the transforms and the hand tracker become boolean and `Option` parameters. The finger distance is a parameter. `1 - exp(-followSmooth * dt)` is a parameter `alpha` in [0, 1).
- `maxTravel` in `VR_Move` is never read, and is left out.

## Findings

| source | as written | input that shows it | evidently intended | confidence | as-written member | corrected member |
|---|---|---|---|---|---|---|
| PiPER_Control/Piper_Move.py:83-85 | every pose whose angles all lie within 3.2 in absolute value is taken for radians and scaled by 57295.7795 | `target_deg` of joint 1 at 1 degree, all others 0 (the telemetry always sends degrees): joint 1 is commanded to 57296 millidegrees, about 57.3 degrees | the angles are degrees, so joint 1 is commanded to 1000 millidegrees | medium, not executed | PiperMove.PiperJointMove (shown by PiperMove.OneDegreeTakenForRadians) | PiperMove.PiperJointMoveDegrees (proved by PiperMove.OneDegreeCorrected and PiperMove.JointOfSnapshot) |
