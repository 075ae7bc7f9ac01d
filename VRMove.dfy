/**
 * The hand-tracking gripper mapper: the thumb-to-index distance of the tracked right hand
 * opens and closes the two gripper jaws, which follow their targets smoothly.
 */
module VRMove {
  import opened Wrappers
  import opened UnityMath

  /** Finger distance (m) at and below which the gripper is fully closed. */
  const CloseDistance: real := 0.02
  /** Finger distance (m) at and above which the gripper is fully open. */
  const MaxDistance: real := 0.12

  /** The normalised opening t of Gripper_Move_By_Finger. */
  function OpeningRatio(dist: real): (t: real)
    ensures 0.0 <= t <= 1.0
    ensures dist <= CloseDistance ==> t == 0.0
    ensures dist >= MaxDistance ==> t == 1.0
  {
    Clamp01(InverseLerp(CloseDistance, MaxDistance, dist))
  }

  /** Spreading the fingers further never closes the gripper. */
  lemma OpeningRatioMonotone(d1: real, d2: real)
    requires d1 <= d2
    ensures OpeningRatio(d1) <= OpeningRatio(d2)
  {
    InverseLerpMonotone(CloseDistance, MaxDistance, d1, d2);
  }

  /**
   * The jaw targets for opening t: joint 7 runs from its lower to its upper limit, joint 8
   * mirrors it from its upper to its lower limit.
   */
  function JawTargets(d7: ArticulationDrive, d8: ArticulationDrive, t: real): (r: (real, real))
    ensures t <= 0.0 ==> r.0 == d7.lowerLimit && r.1 == d8.upperLimit
    ensures t >= 1.0 ==> r.0 == d7.upperLimit && r.1 == d8.lowerLimit
    ensures Between(d7.lowerLimit, d7.upperLimit, r.0) && Between(d8.lowerLimit, d8.upperLimit, r.1)
  {
    (Lerp(d7.lowerLimit, d7.upperLimit, t), Lerp(d8.upperLimit, d8.lowerLimit, t))
  }

  /** The jaws are mirrored: as t rises, joint 7 opens upward and joint 8 moves downward. */
  lemma JawTargetsMirrored(d7: ArticulationDrive, d8: ArticulationDrive, t1: real, t2: real)
    requires t1 <= t2
    requires d7.lowerLimit <= d7.upperLimit && d8.lowerLimit <= d8.upperLimit
    ensures JawTargets(d7, d8, t1).0 <= JawTargets(d7, d8, t2).0
    ensures JawTargets(d7, d8, t1).1 >= JawTargets(d7, d8, t2).1
  {
    LerpMonotone(d7.lowerLimit, d7.upperLimit, t1, t2);
    LerpMonotone(d8.upperLimit, d8.lowerLimit, t1, t2);
  }

  /**
   * The new drive target of SetDrive: the request is clamped into the drive's limits, then the
   * target moves the fraction alpha = 1 - exp(-followSmooth * dt) of the way toward it.
   */
  function SmoothedTarget(drive: ArticulationDrive, target: real, alpha: real): (r: real)
    requires 0.0 <= alpha < 1.0
    ensures Between(drive.target, Clamp(target, drive.lowerLimit, drive.upperLimit), r)
    ensures drive.lowerLimit <= drive.upperLimit && drive.lowerLimit <= drive.target <= drive.upperLimit
      ==> drive.lowerLimit <= r <= drive.upperLimit
  {
    var clamped := Clamp(target, drive.lowerLimit, drive.upperLimit);
    Lerp(drive.target, clamped, alpha)
  }

  class VRMove {
    /** Whether the right hand was tracked at the last tick that had all references. */
    var vrStart: bool
    const joint7: ArticulationBody?
    const joint8: ArticulationBody?

    /** The two gripper jaws are distinct bodies. */
    ghost predicate Valid()
    {
      joint7 != null && joint8 != null ==> joint7 != joint8
    }

    constructor (jaw7: ArticulationBody?, jaw8: ArticulationBody?)
      requires jaw7 != null && jaw8 != null ==> jaw7 != jaw8
      ensures Valid() && !vrStart && joint7 == jaw7 && joint8 == jaw8
    {
      vrStart := false;
      joint7 := jaw7;
      joint8 := jaw8;
    }

    /** SetDrive: only the drive's target changes, to the smoothed value; the limits stay. */
    static method SetDrive(ab: ArticulationBody, target: real, alpha: real)
      requires 0.0 <= alpha < 1.0
      modifies ab
      ensures ab.xDrive == old(ab.xDrive).(target := SmoothedTarget(old(ab.xDrive), target, alpha))
    {
      var drive := ab.xDrive;
      var clamped := Clamp(target, drive.lowerLimit, drive.upperLimit);
      var newTarget := Lerp(drive.target, clamped, alpha);
      drive := drive.(target := newTarget);
      ab.xDrive := drive;
    }

    /** Gripper_Move_By_Finger: both jaw targets are read before either drive is written. */
    method GripperMoveByFinger(dist: real, alpha: real)
      requires Valid() && joint7 != null && joint8 != null
      requires 0.0 <= alpha < 1.0
      modifies joint7, joint8
      ensures var t := OpeningRatio(dist);
        var targets := JawTargets(old(joint7.xDrive), old(joint8.xDrive), t);
        && joint7.xDrive == old(joint7.xDrive).(target := SmoothedTarget(old(joint7.xDrive), targets.0, alpha))
        && joint8.xDrive == old(joint8.xDrive).(target := SmoothedTarget(old(joint8.xDrive), targets.1, alpha))
    {
      var t := InverseLerp(CloseDistance, MaxDistance, dist);
      t := Clamp01(t);
      var d7 := joint7.xDrive;
      var d8 := joint8.xDrive;
      var target7 := Lerp(d7.lowerLimit, d7.upperLimit, t);
      var target8 := Lerp(d8.upperLimit, d8.lowerLimit, t);
      SetDrive(joint7, target7, alpha);
      SetDrive(joint8, target8, alpha);
    }

    /**
     * FixedUpdate. thumbTipAssigned and indexTipAssigned say whether the finger transforms are
     * set, fingerDistance is the distance between them, rightHand is None when no hand is
     * assigned and otherwise whether it is tracked, alpha is 1 - exp(-followSmooth * dt).
     */
    method FixedUpdate(thumbTipAssigned: bool, indexTipAssigned: bool, fingerDistance: real,
                       rightHand: Option<bool>, alpha: real)
      requires Valid() && 0.0 <= alpha < 1.0
      modifies this, joint7, joint8
      ensures Valid()
      ensures var referencesSet := thumbTipAssigned && indexTipAssigned && joint7 != null && joint8 != null;
        var tracked := rightHand.Some? && rightHand.value;
        && (!referencesSet ==> vrStart == old(vrStart))
        && (referencesSet ==> vrStart == tracked)
        && (referencesSet && tracked ==>
              var targets := JawTargets(old(joint7.xDrive), old(joint8.xDrive), OpeningRatio(fingerDistance));
              && joint7.xDrive == old(joint7.xDrive).(target := SmoothedTarget(old(joint7.xDrive), targets.0, alpha))
              && joint8.xDrive == old(joint8.xDrive).(target := SmoothedTarget(old(joint8.xDrive), targets.1, alpha)))
        && (!(referencesSet && tracked) ==>
              (joint7 != null ==> joint7.xDrive == old(joint7.xDrive))
              && (joint8 != null ==> joint8.xDrive == old(joint8.xDrive)))
    {
      if !thumbTipAssigned || !indexTipAssigned || joint7 == null || joint8 == null {
        return;
      }
      if rightHand.Some? && rightHand.value {
        vrStart := true;
        GripperMoveByFinger(fingerDistance, alpha);
      } else {
        vrStart := false;
      }
    }
  }
}
