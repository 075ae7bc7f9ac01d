/**
 * The joint command integrator of the six-joint inverse-kinematics solver, with its angle
 * helpers, joint-limit discovery, the gripper-gap reader and the per-tick dispatch.
 *
 * The damped least-squares solve, the Jacobian and the pose errors are not modelled: each
 * solver iteration receives the joint velocities the solve produced and the distance and
 * rotation angle that the convergence check measured (IterationInput).
 */
module PiperIK {
  import opened Wrappers
  import opened UnityMath
  import VRMove

  const JointCount: nat := 6
  /** d_tolerance: positional convergence tolerance (m). */
  const DTolerance: real := 0.01
  /** r_tolerance: rotational convergence tolerance (degrees). */
  const RTolerance: real := 0.5
  const MaxIterations: nat := 10
  /** The velocity caps Start installs (degrees per second). */
  const DefaultMinVelocity: real := -60.0
  const DefaultMaxVelocity: real := 60.0
  /** Mathf.Rad2Deg */
  const Rad2Deg: real := 57.29578
  /** unity_jaw_max_gap: the widest gripper opening (m). */
  const UnityJawMaxGap: real := 0.035 * 2.0
  /**
   * Time.deltaTime inside FixedUpdate: the project's fixed timestep, a positive number of
   * seconds that the scripts never set.
   */
  type TimeStep = dt: real | dt > 0.0 witness 1.0

  // ---------------------------------------------------------------------------------------
  // Angle wrapping

  /**
   * C#'s float remainder x % 360: the quotient is truncated toward zero, so the result has the
   * sign of x and differs from x by a whole number of turns.
   */
  function Remainder360(x: real): (r: real)
    ensures x >= 0.0 ==> 0.0 <= r < 360.0
    ensures x < 0.0 ==> -360.0 < r <= 0.0
    ensures IsInteger((x - r) / 360.0)
  {
    var q := Trunc(x / 360.0);
    assert (x - (x - q as real * 360.0)) / 360.0 == q as real;
    x - q as real * 360.0
  }

  /** WrapAngle: brings an angle into [-180, 180] without changing its direction. */
  function WrapAngle(angle: real): (r: real)
    ensures -180.0 <= r <= 180.0
    ensures SameAngle(r, angle)
    ensures -180.0 <= angle <= 180.0 ==> r == angle
  {
    var k := Trunc(angle / 360.0);
    var a := Remainder360(angle);
    assert a == angle - k as real * 360.0;
    if a > 180.0 then
      SameAngleWitness(a - 360.0, angle, -k - 1);
      a - 360.0
    else if a < -180.0 then
      SameAngleWitness(a + 360.0, angle, -k + 1);
      a + 360.0
    else
      SameAngleWitness(a, angle, -k);
      assert -180.0 <= angle <= 180.0 ==> k == 0;
      a
  }

  lemma WrapAngleIdempotent(angle: real)
    ensures WrapAngle(WrapAngle(angle)) == WrapAngle(angle)
  {
  }

  /** -180 and 180 are both fixed points, so the range is closed at both ends. */
  lemma WrapAngleEndpoints()
    ensures WrapAngle(180.0) == 180.0 && WrapAngle(-180.0) == -180.0
  {
  }

  // ---------------------------------------------------------------------------------------
  // Gripper gap

  /** A gripper jaw's body as Read_AB sees it: its drive target and its joint position. */
  datatype JawBody = JawBody(driveTarget: Float, jointPosition: seq<Float>)

  /** Read_AB: a finite drive target, else a finite first joint coordinate, else 0. */
  function ReadAB(ab: Option<JawBody>): (r: real)
    ensures ab.None? ==> r == 0.0
    ensures ab.Some? && ab.value.driveTarget.IsFinite() ==> r == ab.value.driveTarget.value
    ensures ab.Some? && !ab.value.driveTarget.IsFinite() ==>
      if |ab.value.jointPosition| > 0 && ab.value.jointPosition[0].IsFinite()
      then r == ab.value.jointPosition[0].value
      else r == 0.0
  {
    match ab
    case None => 0.0
    case Some(body) =>
      if body.driveTarget.IsFinite() then body.driveTarget.value
      else if |body.jointPosition| > 0 && body.jointPosition[0].IsFinite() then body.jointPosition[0].value
      else 0.0
  }

  /** GetGripperPosition: the gap between the jaws, capped at the widest opening. */
  function GetGripperPosition(jawLeft: Option<JawBody>, jawRight: Option<JawBody>): (gap: real)
    ensures 0.0 <= gap <= UnityJawMaxGap
    ensures jawLeft.None? && jawRight.None? ==> gap == 0.0
    ensures Abs(ReadAB(jawLeft) - ReadAB(jawRight)) <= UnityJawMaxGap ==> gap == Abs(ReadAB(jawLeft) - ReadAB(jawRight))
    ensures Abs(ReadAB(jawLeft) - ReadAB(jawRight)) >= UnityJawMaxGap ==> gap == UnityJawMaxGap
  {
    if jawLeft.None? && jawRight.None? then 0.0
    else
      var l := ReadAB(jawLeft);
      var r := ReadAB(jawRight);
      var gap := Abs(l - r);
      var gap := if gap < 0.0 then 0.0 else gap;
      if UnityJawMaxGap > 0.0 then Min(gap, UnityJawMaxGap) else gap
  }

  // ---------------------------------------------------------------------------------------
  // One joint's update in one solver iteration

  /** Both limits recorded and ordered, or neither recorded. */
  predicate LimitsRecorded(lower: Option<real>, upper: Option<real>)
  {
    (lower.Some? <==> upper.Some?) && (lower.Some? ==> lower.value < upper.value)
  }

  /** The limits Start records for a drive: only a proper interval counts as a limit. */
  function RecordedLimits(d: ArticulationDrive): (r: (Option<real>, Option<real>))
    ensures LimitsRecorded(r.0, r.1)
    ensures r.0.Some? <==> d.lowerLimit < d.upperLimit
    ensures r.0.Some? ==> r.0.value == d.lowerLimit && r.1.value == d.upperLimit
  {
    if d.lowerLimit < d.upperLimit then (Some(d.lowerLimit), Some(d.upperLimit)) else (None, None)
  }

  /**
   * A joint's limits as the solver holds them: both present (recorded by Start from a proper
   * interval) or either absent, in which case the joint is unconstrained.
   */
  datatype JointLimits = JointLimits(lower: Option<real>, upper: Option<real>) {
    predicate Bounded() { lower.Some? && upper.Some? }
  }

  /**
   * The caps of one iteration in degrees: minAngleVelocity * dt and maxAngleVelocity * dt bound
   * the raw angle change, |maxAngleVelocity| * dt bounds the smoothing turn.
   */
  datatype StepCaps = StepCaps(minStep: real, maxStep: real, maxTurn: real)

  function CapsOf(minVelocity: real, maxVelocity: real, dt: real): (c: StepCaps)
    requires dt >= 0.0
    ensures c.maxTurn >= 0.0
    ensures minVelocity <= maxVelocity ==> c.minStep <= c.maxStep
  {
    MulNonNegative(Abs(maxVelocity), dt);
    MulMonotone(minVelocity, maxVelocity, dt);
    StepCaps(minVelocity * dt, maxVelocity * dt, Abs(maxVelocity) * dt)
  }

  /**
   * After SetLimitVelocity(-60, 60) every joint may move at most 60 * dt per iteration, either
   * way; for any timestep below 3 s that is less than half a turn.
   */
  lemma DefaultCaps(dt: real)
    requires dt >= 0.0
    ensures CapsOf(DefaultMinVelocity, DefaultMaxVelocity, dt) == StepCaps(-60.0 * dt, 60.0 * dt, 60.0 * dt)
    ensures dt < 3.0 ==> ModestCaps(CapsOf(DefaultMinVelocity, DefaultMaxVelocity, dt))
  {
  }

  /** The unclamped angle change of a joint velocity (radians per second) over dt, in degrees. */
  function RawChange(velocity: real, dt: real): (r: real)
    ensures dt > 0.0 ==> (r > 0.0 <==> velocity > 0.0) && (r < 0.0 <==> velocity < 0.0)
    ensures dt == 0.0 || velocity == 0.0 ==> r == 0.0
  {
    RawChangeSign(velocity, dt);
    velocity * dt * Rad2Deg
  }

  lemma RawChangeSign(velocity: real, dt: real)
    ensures dt > 0.0 ==>
      (velocity * dt * Rad2Deg > 0.0 <==> velocity > 0.0) && (velocity * dt * Rad2Deg < 0.0 <==> velocity < 0.0)
  {
    if dt > 0.0 {
      ProductSign(velocity, dt);
      ProductSign(velocity * dt, Rad2Deg);
    }
  }

  lemma MulMonotone(a: real, b: real, c: real)
    ensures a <= b && c >= 0.0 ==> a * c <= b * c
  {
    if a <= b && c >= 0.0 {
      MulNonNegative(b - a, c);
      assert (b - a) * c == b * c - a * c;
    }
  }

  /** angleChange: the raw change clamped to the iteration's caps. */
  function AngleChange(caps: StepCaps, raw: real): (r: real)
    ensures caps.minStep <= caps.maxStep ==> caps.minStep <= r <= caps.maxStep
    ensures caps.minStep <= raw <= caps.maxStep ==> r == raw
  {
    Clamp(raw, caps.minStep, caps.maxStep)
  }

  /** newAngle: the step from the previous angle, clamped into the joint's limits when it has both. */
  function NewAngle(limits: JointLimits, pre: real, change: real): (r: real)
    ensures limits.Bounded() && limits.lower.value <= limits.upper.value
      ==> limits.lower.value <= r <= limits.upper.value
    ensures limits.Bounded() && limits.lower.value <= pre + change <= limits.upper.value ==> r == pre + change
    ensures !limits.Bounded() ==> r == pre + change
  {
    if limits.Bounded() then Clamp(pre + change, limits.lower.value, limits.upper.value)
    else pre + change
  }

  /**
   * The drive target one iteration writes for a joint with previous angle pre and drive target
   * current: it turns from current by at most caps.maxTurn, measured as an angle.
   */
  function JointStep(limits: JointLimits, caps: StepCaps, pre: real, current: real, raw: real): (r: real)
    requires caps.maxTurn >= 0.0
    ensures Abs(DeltaAngle(current, r)) <= caps.maxTurn
  {
    var change := AngleChange(caps, raw);
    var newAngle := NewAngle(limits, pre, change);
    MoveTowardsAngle(current, newAngle, caps.maxTurn)
  }

  /** The caps are ordered and move a joint by less than half a turn per iteration. */
  predicate ModestCaps(caps: StepCaps)
  {
    && caps.maxTurn >= 0.0
    && caps.minStep <= caps.maxStep
    && -180.0 < caps.minStep && caps.maxStep < 180.0
  }

  /** Clamping into an interval that holds pre moves toward pre, never past the request. */
  lemma ClampTowardInside(pre: real, x: real, lo: real, hi: real)
    requires lo <= pre <= hi
    ensures Between(pre, x, Clamp(x, lo, hi))
  {
  }

  /** Containment: a joint that starts inside its limits, synced with its drive, stays inside them. */
  lemma JointStepWithinLimits(limits: JointLimits, caps: StepCaps, pre: real, raw: real)
    requires ModestCaps(caps) && limits.Bounded()
    requires limits.lower.value <= pre <= limits.upper.value
    ensures limits.lower.value <= JointStep(limits, caps, pre, pre, raw) <= limits.upper.value
  {
    var change := AngleChange(caps, raw);
    var newAngle := NewAngle(limits, pre, change);
    ClampTowardInside(pre, pre + change, limits.lower.value, limits.upper.value);
    MoveTowardsAngleOfNear(pre, newAngle, caps.maxTurn);
  }

  // ---------------------------------------------------------------------------------------
  // A whole solve: up to MaxIterations iterations over all joints

  /**
   * What one solver iteration receives from the parts that are not modelled: the joint
   * velocities of the damped least-squares solve, and, for the check after joint i, the
   * distance and rotation angle between the end effector and the target.
   */
  datatype IterationInput = IterationInput(jointVelocities: seq<real>, distance: seq<real>, rotationAngle: seq<real>) {
    predicate WellFormed()
    {
      |jointVelocities| == JointCount && |distance| == JointCount && |rotationAngle| == JointCount
    }
  }

  predicate AllWellFormed(inputs: seq<IterationInput>)
  {
    forall k :: 0 <= k < |inputs| ==> inputs[k].WellFormed()
  }

  /** The check after joint i: within both tolerances. */
  predicate WithinTolerance(it: IterationInput, i: nat)
    requires it.WellFormed() && i < JointCount
  {
    it.distance[i] < DTolerance && it.rotationAngle[i] < RTolerance
  }

  /** reachedTarget at the end of an iteration: every joint's check passed. */
  predicate Reached(it: IterationInput)
    requires it.WellFormed()
  {
    forall i :: 0 <= i < JointCount ==> WithinTolerance(it, i)
  }

  /**
   * How many iterations a solve runs: up to and including the first one that reaches the
   * target, and all of them when none does.
   */
  function IterationsNeeded(inputs: seq<IterationInput>): (n: nat)
    requires AllWellFormed(inputs)
    ensures n <= |inputs| && (|inputs| > 0 ==> n >= 1)
    ensures forall k :: 0 <= k < n - 1 ==> !Reached(inputs[k])
    ensures 0 < n < |inputs| ==> Reached(inputs[n - 1])
  {
    if |inputs| == 0 then 0
    else if Reached(inputs[0]) then 1
    else
      var n := 1 + IterationsNeeded(inputs[1..]);
      assert forall k :: 1 <= k < n - 1 ==> inputs[k] == inputs[1..][k - 1];
      n
  }

  /** The first iteration that reaches the target (or the last one) is where a solve stops. */
  lemma IterationsNeededIsFirstReached(inputs: seq<IterationInput>, n: nat)
    requires AllWellFormed(inputs) && 0 < n <= |inputs|
    requires forall k :: 0 <= k < n - 1 ==> !Reached(inputs[k])
    requires n < |inputs| ==> Reached(inputs[n - 1])
    ensures IterationsNeeded(inputs) == n
  {
  }

  /**
   * Within one FixedUpdate the physics engine does not move the transforms, so every iteration
   * sees the same pose; the solve then stops after the first iteration or runs all of them.
   */
  lemma IterationsNeededOfFrozenPose(inputs: seq<IterationInput>)
    requires AllWellFormed(inputs) && |inputs| > 0
    requires forall k :: 0 <= k < |inputs| ==> inputs[k] == inputs[0]
    ensures IterationsNeeded(inputs) == 1 || IterationsNeeded(inputs) == |inputs|
  {
  }

  /** A joint's previous angle and drive target. */
  datatype JointState = JointState(pre: real, target: real)

  /**
   * The state of joint i after the first m iterations of inputs, from state s, when each
   * iteration lasts dt seconds. Every iteration leaves the previous angle equal to the drive
   * target.
   */
  function RunJoint(limits: JointLimits, caps: StepCaps, s: JointState, inputs: seq<IterationInput>,
                    i: nat, dt: real, m: nat): (r: JointState)
    requires caps.maxTurn >= 0.0 && AllWellFormed(inputs) && i < JointCount && m <= |inputs|
    ensures m > 0 ==> r.pre == r.target
  {
    if m == 0 then s
    else
      var s' := RunJoint(limits, caps, s, inputs, i, dt, m - 1);
      var x := JointStep(limits, caps, s'.pre, s'.target, RawChange(inputs[m - 1].jointVelocities[i], dt));
      JointState(x, x)
  }

  /**
   * One more iteration of a run: from the state the run reached (previous angle pre, drive
   * target current), iteration m's JointStep is the run's next drive target.
   */
  lemma RunJointStep(limits: JointLimits, caps: StepCaps, s: JointState, inputs: seq<IterationInput>,
                     i: nat, dt: real, m: nat, pre: real, current: real)
    requires caps.maxTurn >= 0.0 && AllWellFormed(inputs) && i < JointCount && m < |inputs|
    requires current == RunJoint(limits, caps, s, inputs, i, dt, m).target
    requires pre == (if m == 0 then s.pre else current)
    ensures RunJoint(limits, caps, s, inputs, i, dt, m + 1).target
      == JointStep(limits, caps, pre, current, RawChange(inputs[m].jointVelocities[i], dt))
  {
  }

  /** Containment over a whole solve: a joint synced and inside its limits stays so. */
  lemma {:induction false} RunJointWithinLimits(limits: JointLimits, caps: StepCaps, s: JointState,
                                                inputs: seq<IterationInput>, i: nat, dt: real, m: nat)
    requires ModestCaps(caps) && limits.Bounded() && AllWellFormed(inputs) && i < JointCount && m <= |inputs|
    requires s.pre == s.target && limits.lower.value <= s.pre <= limits.upper.value
    ensures var r := RunJoint(limits, caps, s, inputs, i, dt, m);
      r.pre == r.target && limits.lower.value <= r.pre <= limits.upper.value
  {
    if m > 0 {
      RunJointWithinLimits(limits, caps, s, inputs, i, dt, m - 1);
      var s' := RunJoint(limits, caps, s, inputs, i, dt, m - 1);
      JointStepWithinLimits(limits, caps, s'.pre, RawChange(inputs[m - 1].jointVelocities[i], dt));
    }
  }

  /** n turns of at most step each, written as a sum; TurnsIsProduct shows it is n * step. */
  function Turns(n: nat, step: real): (t: real)
    ensures step >= 0.0 ==> t >= 0.0
  {
    if n == 0 then 0.0 else Turns(n - 1, step) + step
  }

  lemma {:induction false} TurnsIsProduct(n: nat, step: real)
    ensures Turns(n, step) == n as real * step
  {
    if n > 0 {
      TurnsIsProduct(n - 1, step);
      assert (n - 1) as real * step + step == n as real * step;
    }
  }

  /** Two turns bounded by b1 and b2 make a turn bounded by b1 + b2. */
  lemma TurnsAdd(a: real, b: real, c: real, b1: real, b2: real)
    requires Abs(DeltaAngle(a, b)) <= b1 && Abs(DeltaAngle(b, c)) <= b2
    ensures Abs(DeltaAngle(a, c)) <= b1 + b2
  {
    DeltaAngleTriangle(a, b, c);
  }

  /**
   * Over m iterations a joint's drive target turns by at most Turns(m, caps.maxTurn), that is
   * m * caps.maxTurn, measured as an angle.
   */
  lemma {:induction false} RunJointTurns(limits: JointLimits, caps: StepCaps, s: JointState,
                                            inputs: seq<IterationInput>, i: nat, dt: real, m: nat)
    requires caps.maxTurn >= 0.0 && AllWellFormed(inputs) && i < JointCount && m <= |inputs|
    ensures Abs(DeltaAngle(s.target, RunJoint(limits, caps, s, inputs, i, dt, m).target)) <= Turns(m, caps.maxTurn)
  {
    if m == 0 {
      DeltaAngleOfNear(s.target, s.target);
    } else {
      RunJointTurns(limits, caps, s, inputs, i, dt, m - 1);
      var s' := RunJoint(limits, caps, s, inputs, i, dt, m - 1);
      var x := JointStep(limits, caps, s'.pre, s'.target, RawChange(inputs[m - 1].jointVelocities[i], dt));
      TurnsAdd(s.target, s'.target, x, Turns(m - 1, caps.maxTurn), caps.maxTurn);
    }
  }

  /** Fewer turns of a non-negative step add up to less. */
  lemma {:induction false} TurnsMonotone(m: nat, n: nat, step: real)
    requires m <= n && step >= 0.0
    ensures Turns(m, step) <= Turns(n, step)
  {
    if m < n {
      TurnsMonotone(m, n - 1, step);
    }
  }

  /**
   * One FixedUpdate runs at most MaxIterations iterations, so it turns a joint's drive target
   * by at most ten per-iteration caps: 10 * abs(maxAngleVelocity) * dt, not one.
   */
  lemma RunJointTurnsPerTick(limits: JointLimits, caps: StepCaps, s: JointState,
                             inputs: seq<IterationInput>, i: nat, dt: real, m: nat)
    requires caps.maxTurn >= 0.0 && AllWellFormed(inputs) && i < JointCount && m <= |inputs|
    requires m <= MaxIterations
    ensures Abs(DeltaAngle(s.target, RunJoint(limits, caps, s, inputs, i, dt, m).target)) <= 10.0 * caps.maxTurn
  {
    RunJointTurns(limits, caps, s, inputs, i, dt, m);
    TurnsMonotone(m, MaxIterations, caps.maxTurn);
    TurnsIsProduct(MaxIterations, caps.maxTurn);
  }

  // ---------------------------------------------------------------------------------------
  // The solver object

  /** The index of the first unassigned joint, or the number of joints when all are assigned. */
  function FirstUnassigned(js: seq<ArticulationBody?>): (n: nat)
    ensures n <= |js|
    ensures forall i :: 0 <= i < n ==> js[i] != null
    ensures n < |js| ==> js[n] == null
  {
    if |js| == 0 then 0 else if js[0] == null then 0 else 1 + FirstUnassigned(js[1..])
  }

  class PiperIK {
    /** The hand-tracking script whose vr_start gates the tracked-hand target. */
    const vr: VRMove.VRMove?
    /** The six arm joints, as assigned in the scene; the script never reassigns them. */
    const joint: seq<ArticulationBody?>
    /** The commanded angles reported as target_deg. */
    const angle: array<real>
    const minAngle: array<Option<real>>
    const maxAngle: array<Option<real>>
    const minAngleVelocity: array<real>
    const maxAngleVelocity: array<real>
    const preAngle: array<real>
    /** Time.deltaTime of every physics step. */
    const deltaTime: TimeStep

    /** Six joints, six-entry arrays and no two arrays aliased. */
    ghost predicate Shaped()
      reads this
    {
      && |joint| == JointCount && angle.Length == JointCount && preAngle.Length == JointCount
      && minAngle.Length == JointCount && maxAngle.Length == JointCount
      && minAngleVelocity.Length == JointCount && maxAngleVelocity.Length == JointCount
      && angle != preAngle && angle != minAngleVelocity && angle != maxAngleVelocity
      && preAngle != minAngleVelocity && preAngle != maxAngleVelocity
      && minAngleVelocity != maxAngleVelocity && minAngle != maxAngle
    }

    /** The index of the joint each assigned body drives. */
    ghost const slot: map<ArticulationBody, nat>

    /** No body is assigned to two joints: every assigned body's slot is its own joint's index. */
    ghost predicate DistinctJoints()
      reads this
    {
      forall a :: 0 <= a < |joint| && joint[a] != null ==> joint[a] in slot && slot[joint[a]] == a
    }

    /** Every joint's limits are both recorded or both missing. */
    ghost predicate LimitsKnown()
      requires Shaped()
      reads this, minAngle, maxAngle
    {
      forall i :: 0 <= i < JointCount ==> LimitsRecorded(minAngle[i], maxAngle[i])
    }

    ghost predicate Valid()
      reads this, minAngle, maxAngle
    {
      Shaped() && DistinctJoints() && LimitsKnown()
    }

    predicate AllAssigned()
      reads this
    {
      forall i :: 0 <= i < |joint| ==> joint[i] != null
    }

    /** The invariant Start establishes and every joint update keeps: preAngle == angle == drive target. */
    ghost predicate Synced()
      requires Valid() && AllAssigned()
      reads this, angle, preAngle, minAngle, maxAngle, joint
    {
      forall i :: 0 <= i < JointCount ==> preAngle[i] == angle[i] == joint[i].xDrive.target
    }

    ghost function Limits(i: nat): JointLimits
      requires i < minAngle.Length && i < maxAngle.Length
      reads this, minAngle, maxAngle
    {
      JointLimits(minAngle[i], maxAngle[i])
    }

    /** Joint i's caps for one iteration of a FixedUpdate. */
    ghost function Caps(i: nat): StepCaps
      requires i < minAngleVelocity.Length && i < maxAngleVelocity.Length
      reads this, minAngle, maxAngle, minAngleVelocity, maxAngleVelocity
    {
      CapsOf(minAngleVelocity[i], maxAngleVelocity[i], deltaTime)
    }

    /** The fields as the C# initialisers leave them: zero angles and caps, no limits. */
    constructor (joints: seq<ArticulationBody?>, vrMove: VRMove.VRMove?, fixedDeltaTime: TimeStep)
      requires |joints| == JointCount
      requires forall a, b :: 0 <= a < b < JointCount && joints[a] != null ==> joints[a] != joints[b]
      ensures Valid() && joint == joints && vr == vrMove && deltaTime == fixedDeltaTime
      ensures forall i :: 0 <= i < JointCount ==>
        angle[i] == 0.0 && preAngle[i] == 0.0 && minAngle[i].None? && maxAngle[i].None?
        && minAngleVelocity[i] == 0.0 && maxAngleVelocity[i] == 0.0
      ensures fresh(angle) && fresh(preAngle) && fresh(minAngle) && fresh(maxAngle)
      ensures fresh(minAngleVelocity) && fresh(maxAngleVelocity)
    {
      vr := vrMove;
      joint := joints;
      deltaTime := fixedDeltaTime;
      slot := map i | 0 <= i < |joints| && joints[i] != null :: joints[i] := i;
      angle := new real[JointCount](_ => 0.0);
      preAngle := new real[JointCount](_ => 0.0);
      minAngle := new Option<real>[JointCount](_ => None);
      maxAngle := new Option<real>[JointCount](_ => None);
      minAngleVelocity := new real[JointCount](_ => 0.0);
      maxAngleVelocity := new real[JointCount](_ => 0.0);
    }

    /** GetJointAnglesDeg: a fresh copy of the commanded angles. */
    method GetJointAnglesDeg() returns (r: array<real>)
      requires Valid()
      ensures fresh(r) && r[..] == angle[..]
    {
      r := new real[angle.Length](i requires 0 <= i < angle.Length reads angle => angle[i]);
      assert r[..] == angle[..];
    }

    method SetLimitVelocity(min: real, max: real)
      requires Valid()
      modifies minAngleVelocity, maxAngleVelocity
      ensures forall i :: 0 <= i < JointCount ==> minAngleVelocity[i] == min && maxAngleVelocity[i] == max
    {
      var i := 0;
      while i < |joint|
        invariant 0 <= i <= |joint|
        invariant forall k :: 0 <= k < i ==> minAngleVelocity[k] == min && maxAngleVelocity[k] == max
      {
        minAngleVelocity[i] := min;
        maxAngleVelocity[i] := max;
        i := i + 1;
      }
    }

    /** One pass of Start's loop, for an assigned joint. */
    method StartJoint(i: nat)
      requires Valid() && i < JointCount && joint[i] != null
      modifies angle, preAngle, minAngle, maxAngle
      ensures Valid()
      ensures angle[i] == joint[i].xDrive.target && preAngle[i] == joint[i].xDrive.target
      ensures (minAngle[i], maxAngle[i]) == RecordedLimits(joint[i].xDrive)
      ensures forall k :: 0 <= k < JointCount && k != i ==>
        angle[k] == old(angle[k]) && preAngle[k] == old(preAngle[k])
        && minAngle[k] == old(minAngle[k]) && maxAngle[k] == old(maxAngle[k])
    {
      var j := joint[i].xDrive;
      angle[i] := j.target;
      preAngle[i] := j.target;
      if j.lowerLimit < j.upperLimit {
        minAngle[i] := Some(j.lowerLimit);
        maxAngle[i] := Some(j.upperLimit);
      } else {
        minAngle[i] := None;
        maxAngle[i] := None;
      }
    }

    /**
     * Start: each joint's drive target becomes its angle and previous angle, and its limits are
     * recorded when they form a proper interval. An unassigned joint ends the setup there,
     * before the velocity caps are installed.
     */
    method Start()
      requires Valid()
      modifies angle, preAngle, minAngle, maxAngle, minAngleVelocity, maxAngleVelocity
      ensures Valid()
      ensures var n := FirstUnassigned(joint);
        && (forall i :: 0 <= i < n ==>
              angle[i] == joint[i].xDrive.target && preAngle[i] == joint[i].xDrive.target
              && (minAngle[i], maxAngle[i]) == RecordedLimits(joint[i].xDrive))
        && (forall i :: n <= i < JointCount ==>
              angle[i] == old(angle[i]) && preAngle[i] == old(preAngle[i])
              && minAngle[i] == old(minAngle[i]) && maxAngle[i] == old(maxAngle[i]))
        && (n == JointCount ==> forall i :: 0 <= i < JointCount ==>
              minAngleVelocity[i] == DefaultMinVelocity && maxAngleVelocity[i] == DefaultMaxVelocity)
        && (n < JointCount ==> unchanged(minAngleVelocity, maxAngleVelocity))
      ensures AllAssigned() ==> Synced()
    {
      ghost var n := FirstUnassigned(joint);
      var i := 0;
      while i < |joint|
        invariant 0 <= i <= n
        invariant Valid()
        invariant forall k :: 0 <= k < i ==>
          angle[k] == joint[k].xDrive.target && preAngle[k] == joint[k].xDrive.target
          && (minAngle[k], maxAngle[k]) == RecordedLimits(joint[k].xDrive)
        invariant forall k :: i <= k < JointCount ==>
          angle[k] == old(angle[k]) && preAngle[k] == old(preAngle[k])
          && minAngle[k] == old(minAngle[k]) && maxAngle[k] == old(maxAngle[k])
        invariant unchanged(minAngleVelocity, maxAngleVelocity)
      {
        if joint[i] == null {
          return;
        }
        StartJoint(i);
        i := i + 1;
      }
      SetLimitVelocity(DefaultMinVelocity, DefaultMaxVelocity);
    }

    /**
     * Joint i's drive after the given iterations, from drive d0 and previous angle p0: only
     * its target has moved, to where RunJoint takes it.
     */
    ghost predicate DriveAfter(i: nat, d0: ArticulationDrive, p0: real, inputs: seq<IterationInput>, m: nat)
      requires Valid() && AllAssigned() && i < JointCount && AllWellFormed(inputs) && m <= |inputs|
      reads this, minAngle, maxAngle, minAngleVelocity, maxAngleVelocity, joint[i]
    {
      joint[i].xDrive == d0.(target := RunJoint(Limits(i), Caps(i), JointState(p0, d0.target), inputs, i, deltaTime, m).target)
    }

    /** One joint update of SolveIK's inner loop: clamp, limit, smooth, write back. */
    method UpdateJoint(i: nat, velocity: real)
      requires Valid() && AllAssigned() && i < JointCount
      modifies angle, preAngle, joint[i]
      ensures Valid()
      ensures var x := JointStep(Limits(i), Caps(i), old(preAngle[i]), old(joint[i].xDrive.target), RawChange(velocity, deltaTime));
        joint[i].xDrive == old(joint[i].xDrive).(target := x) && preAngle[i] == x && angle[i] == x
      ensures forall k :: 0 <= k < JointCount && k != i ==>
        preAngle[k] == old(preAngle[k]) && angle[k] == old(angle[k]) && joint[k].xDrive == old(joint[k].xDrive)
    {
      var caps := CapsOf(minAngleVelocity[i], maxAngleVelocity[i], deltaTime);
      var d := joint[i].xDrive;
      var smoothed := JointStep(JointLimits(minAngle[i], maxAngle[i]), caps, preAngle[i], d.target, RawChange(velocity, deltaTime));
      d := d.(target := smoothed);
      joint[i].xDrive := d;
      preAngle[i] := d.target;
      angle[i] := d.target;
    }

    /** The drives of the six joints, in order. */
    ghost function Drives(): (ds: seq<ArticulationDrive>)
      requires Valid() && AllAssigned()
      reads this, minAngle, maxAngle, joint
      ensures |ds| == JointCount && forall j :: 0 <= j < JointCount ==> ds[j] == joint[j].xDrive
    {
      seq(JointCount, j requires 0 <= j < JointCount reads this, joint => joint[j].xDrive)
    }

    /**
     * One iteration of SolveIK: every joint takes one JointStep from its own previous angle and
     * drive target, and the result says whether every joint's check passed.
     */
    method RunIteration(it: IterationInput) returns (reachedTarget: bool)
      requires Valid() && AllAssigned() && it.WellFormed()
      modifies angle, preAngle, joint
      ensures Valid()
      ensures reachedTarget == Reached(it)
      ensures forall j :: 0 <= j < JointCount ==>
        var x := JointStep(Limits(j), Caps(j), old(preAngle[j]), old(joint[j].xDrive.target), RawChange(it.jointVelocities[j], deltaTime));
        joint[j].xDrive == old(joint[j].xDrive).(target := x) && preAngle[j] == x && angle[j] == x
    {
      reachedTarget := true;
      var i := 0;
      while i < JointCount
        invariant 0 <= i <= JointCount
        invariant reachedTarget <==> forall j :: 0 <= j < i ==> WithinTolerance(it, j)
        invariant forall j :: 0 <= j < i ==>
          var x := JointStep(Limits(j), Caps(j), old(preAngle[j]), old(joint[j].xDrive.target), RawChange(it.jointVelocities[j], deltaTime));
          joint[j].xDrive == old(joint[j].xDrive).(target := x) && preAngle[j] == x && angle[j] == x
        invariant forall j :: i <= j < JointCount ==>
          joint[j].xDrive == old(joint[j].xDrive) && preAngle[j] == old(preAngle[j])
      {
        UpdateJoint(i, it.jointVelocities[i]);
        if it.distance[i] >= DTolerance || it.rotationAngle[i] >= RTolerance {
          reachedTarget := false;
        }
        assert (forall j :: 0 <= j < i + 1 ==> WithinTolerance(it, j))
          <==> (forall j :: 0 <= j < i ==> WithinTolerance(it, j)) && WithinTolerance(it, i);
        i := i + 1;
      }
    }

    /**
     * Every joint's drive after the first m iterations, from drives d0s and previous angles
     * p0s, with the previous angle as that run leaves it.
     */
    ghost predicate AllAfter(d0s: seq<ArticulationDrive>, p0s: seq<real>, inputs: seq<IterationInput>, m: nat)
      requires Valid() && AllAssigned() && AllWellFormed(inputs) && m <= |inputs|
      requires |d0s| == JointCount && |p0s| == JointCount
      reads this, preAngle, minAngle, maxAngle, minAngleVelocity, maxAngleVelocity, joint
    {
      forall j :: 0 <= j < JointCount ==>
        && DriveAfter(j, d0s[j], p0s[j], inputs, m)
        && preAngle[j] == (if m == 0 then p0s[j] else joint[j].xDrive.target)
    }

    /** Pass m of SolveIK's outer loop: the run from d0s and p0s grows by iteration m. */
    method Iterate(inputs: seq<IterationInput>, m: nat, ghost d0s: seq<ArticulationDrive>, ghost p0s: seq<real>)
      returns (reachedTarget: bool)
      requires Valid() && AllAssigned() && AllWellFormed(inputs) && m < |inputs|
      requires |d0s| == JointCount && |p0s| == JointCount
      requires AllAfter(d0s, p0s, inputs, m)
      modifies angle, preAngle, joint
      ensures Valid() && Synced() && reachedTarget == Reached(inputs[m])
      ensures AllAfter(d0s, p0s, inputs, m + 1)
    {
      var it := inputs[m];
      ghost var pres := preAngle[..];
      ghost var drives := Drives();
      reachedTarget := RunIteration(it);
      forall j | 0 <= j < JointCount
        ensures DriveAfter(j, d0s[j], p0s[j], inputs, m + 1)
      {
        RunJointStep(Limits(j), Caps(j), JointState(p0s[j], d0s[j].target), inputs, j, deltaTime, m,
                     pres[j], drives[j].target);
      }
    }

    /** SolveIK's loop, for a solver whose joints are all assigned. */
    method SolveLoop(inputs: seq<IterationInput>, ghost d0s: seq<ArticulationDrive>, ghost p0s: seq<real>)
      returns (iterationsRun: nat)
      requires Valid() && AllAssigned()
      requires |inputs| == MaxIterations && AllWellFormed(inputs)
      requires |d0s| == JointCount && |p0s| == JointCount
      requires AllAfter(d0s, p0s, inputs, 0)
      modifies angle, preAngle, joint
      ensures Valid() && Synced()
      ensures iterationsRun == IterationsNeeded(inputs)
      ensures iterationsRun <= |inputs| && AllAfter(d0s, p0s, inputs, iterationsRun)
    {
      var iterations := 0;
      var reachedTarget := false;
      while iterations < MaxIterations && !reachedTarget
        invariant 0 <= iterations <= MaxIterations && Valid()
        invariant forall k :: 0 <= k < iterations - 1 ==> !Reached(inputs[k])
        invariant iterations > 0 ==> reachedTarget == Reached(inputs[iterations - 1])
        invariant !reachedTarget || iterations > 0
        invariant AllAfter(d0s, p0s, inputs, iterations)
        invariant iterations > 0 ==> Synced()
      {
        reachedTarget := Iterate(inputs, iterations, d0s, p0s);
        iterations := iterations + 1;
      }
      IterationsNeededIsFirstReached(inputs, iterations);
      iterationsRun := iterations;
    }

    /**
     * SolveIK; returns how many iterations ran. With an unassigned joint the Jacobian cannot
     * be built and nothing changes. Otherwise the loop runs until the first iteration that
     * reaches the target, at most MaxIterations times; afterwards every joint's angle,
     * previous angle and drive target agree, at the value those iterations lead to.
     */
    method SolveIK(inputs: seq<IterationInput>) returns (iterationsRun: nat)
      requires Valid()
      requires |inputs| == MaxIterations && AllWellFormed(inputs)
      modifies angle, preAngle, joint
      ensures Valid()
      ensures !AllAssigned() ==>
        && iterationsRun == 0 && unchanged(angle, preAngle)
        && (forall i :: 0 <= i < |joint| && joint[i] != null ==> joint[i].xDrive == old(joint[i].xDrive))
      ensures AllAssigned() ==>
        && iterationsRun == IterationsNeeded(inputs)
        && Synced()
        && forall i :: 0 <= i < JointCount ==> DriveAfter(i, old(joint[i].xDrive), old(preAngle[i]), inputs, iterationsRun)
    {
      if !AllAssigned() {
        return 0;
      }
      ghost var d0s := Drives();
      ghost var p0s := preAngle[..];
      iterationsRun := SolveLoop(inputs, d0s, p0s);
    }

    /**
     * FixedUpdate: solve when both targets are assigned and the target is the manual one
     * ("Target"), or the hand-tracking one ("Target_VR") while the hand script reports
     * vr_start. targetTag is None when no target object is assigned.
     */
    method FixedUpdate(eeTargetAssigned: bool, targetTag: Option<string>, inputs: seq<IterationInput>)
      returns (solved: bool, iterationsRun: nat)
      requires Valid()
      requires |inputs| == MaxIterations && AllWellFormed(inputs)
      modifies angle, preAngle, joint
      ensures Valid()
      ensures solved <==> (eeTargetAssigned && targetTag.Some? &&
        (targetTag.value == "Target" || (targetTag.value == "Target_VR" && vr != null && vr.vrStart)))
      ensures !solved ==>
        && iterationsRun == 0 && unchanged(angle, preAngle)
        && (forall i :: 0 <= i < |joint| && joint[i] != null ==> joint[i].xDrive == old(joint[i].xDrive))
      ensures solved && !AllAssigned() ==>
        && iterationsRun == 0 && unchanged(angle, preAngle)
        && (forall i :: 0 <= i < |joint| && joint[i] != null ==> joint[i].xDrive == old(joint[i].xDrive))
      ensures solved && AllAssigned() ==>
        && iterationsRun == IterationsNeeded(inputs)
        && Synced()
        && forall i :: 0 <= i < JointCount ==> DriveAfter(i, old(joint[i].xDrive), old(preAngle[i]), inputs, iterationsRun)
    {
      solved, iterationsRun := false, 0;
      if !eeTargetAssigned || targetTag.None? {
        return;
      }
      if targetTag.value == "Target" {
        solved := true;
        iterationsRun := SolveIK(inputs);
      } else if targetTag.value == "Target_VR" {
        if vr != null && vr.vrStart {
          solved := true;
          iterationsRun := SolveIK(inputs);
        }
      }
    }
  }
}
