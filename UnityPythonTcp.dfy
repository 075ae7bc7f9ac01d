/**
 * The telemetry snapshot producer: every physics tick it reads the solver's commanded and
 * current joint angles and the gripper gap, and caches a numbered snapshot; a client that
 * sends the line "get" receives the cached snapshot.
 *
 * The snapshot is modelled as a record; its JSON text (F4/F6 formatting) is not.
 */
module UnityPythonTcp {
  import opened UnityMath
  import PiperIK

  /** unityClosedM and unityOpenM: the gap (m) of the closed and the fully open Unity gripper. */
  const UnityClosedM: real := 0.0
  const UnityOpenM: real := 0.035 * 2.0
  /** piper_jaw_min and piper_jaw_max: the same two openings in the robot's gripper units. */
  const PiperJawMin: real := 0.0
  const PiperJawMax: real := 80080.0

  /** The content of latestJson. */
  datatype Snapshot = Snapshot(seqNo: int, ts: real, targetDeg: seq<Float>, currentDeg: seq<Float>, piperJaw: int)

  /** The snapshot cached before the first tick. */
  const InitialSnapshot: Snapshot :=
    Snapshot(0, 0.0, [Finite(0.0), Finite(0.0), Finite(0.0), Finite(0.0), Finite(0.0), Finite(0.0)],
             [Finite(0.0), Finite(0.0), Finite(0.0), Finite(0.0), Finite(0.0), Finite(0.0)], 0)

  /** The initial snapshot has number 0, six zero angles of each kind and a closed jaw. */
  lemma InitialSnapshotIsZero()
    ensures InitialSnapshot.seqNo == 0 && InitialSnapshot.piperJaw == 0
    ensures |InitialSnapshot.targetDeg| == PiperIK.JointCount && |InitialSnapshot.currentDeg| == PiperIK.JointCount
    ensures forall i :: 0 <= i < PiperIK.JointCount ==>
      InitialSnapshot.targetDeg[i] == Finite(0.0) && InitialSnapshot.currentDeg[i] == Finite(0.0)
  {
  }

  /**
   * piper_jaw: the gap's position between the closed and the open Unity gripper, carried over
   * to the robot's range and rounded to an integer.
   */
  function PiperJaw(gap: real): (jaw: int)
    ensures 0 <= jaw <= 80080
    ensures gap <= UnityClosedM ==> jaw == 0
    ensures gap >= UnityOpenM ==> jaw == 80080
  {
    var ratio := InverseLerp(UnityClosedM, UnityOpenM, gap);
    var x := Lerp(PiperJawMin, PiperJawMax, ratio);
    RoundHalfEvenOfInteger(0);
    RoundHalfEvenOfInteger(80080);
    RoundHalfEven(x)
  }

  /** A wider Unity gripper never gives a narrower robot jaw command. */
  lemma PiperJawMonotone(gap1: real, gap2: real)
    requires gap1 <= gap2
    ensures PiperJaw(gap1) <= PiperJaw(gap2)
  {
    InverseLerpMonotone(UnityClosedM, UnityOpenM, gap1, gap2);
    var r1 := InverseLerp(UnityClosedM, UnityOpenM, gap1);
    var r2 := InverseLerp(UnityClosedM, UnityOpenM, gap2);
    LerpMonotone(PiperJawMin, PiperJawMax, r1, r2);
    RoundHalfEvenMonotone(Lerp(PiperJawMin, PiperJawMax, r1), Lerp(PiperJawMin, PiperJawMax, r2));
  }

  /** The NaN/Inf guard: the first six entries become finite, 0 replacing a non-finite one. */
  function Sanitized(xs: seq<Float>): (r: seq<Float>)
    ensures |r| == |xs|
    ensures forall i :: 0 <= i < |xs| && i < PiperIK.JointCount ==> r[i].IsFinite()
    ensures forall i :: 0 <= i < |xs| && i < PiperIK.JointCount && !xs[i].IsFinite() ==> r[i] == Finite(0.0)
    ensures forall i :: 0 <= i < |xs| && (PiperIK.JointCount <= i || xs[i].IsFinite()) ==> r[i] == xs[i]
  {
    seq(|xs|, i requires 0 <= i < |xs| => if i < PiperIK.JointCount && !xs[i].IsFinite() then Finite(0.0) else xs[i])
  }

  /** Sanitising twice is sanitising once. */
  lemma SanitizedIdempotent(xs: seq<Float>)
    ensures Sanitized(Sanitized(xs)) == Sanitized(xs)
  {
  }

  /** The replies a client receives for its request lines: the snapshot once per "get" line. */
  function Replies(lines: seq<string>, snapshot: Snapshot): (r: seq<Snapshot>)
    ensures |r| == multiset(lines)["get"]
    ensures forall k :: 0 <= k < |r| ==> r[k] == snapshot
  {
    if |lines| == 0 then []
    else
      var front := lines[..|lines| - 1];
      assert lines == front + [lines[|lines| - 1]];
      Replies(front, snapshot) + (if lines[|lines| - 1] == "get" then [snapshot] else [])
  }

  /** The replies to two batches of lines are the replies to each, in order. */
  lemma {:induction false} RepliesAppend(lines1: seq<string>, lines2: seq<string>, snapshot: Snapshot)
    ensures Replies(lines1 + lines2, snapshot) == Replies(lines1, snapshot) + Replies(lines2, snapshot)
  {
    if |lines2| > 0 {
      var front := lines2[..|lines2| - 1];
      assert (lines1 + lines2)[..|lines1 + lines2| - 1] == lines1 + front;
      RepliesAppend(lines1, front, snapshot);
    } else {
      assert lines1 + lines2 == lines1;
    }
  }

  /** A line other than "get" is not answered. */
  lemma RepliesOfOtherLine(line: string, snapshot: Snapshot)
    requires line != "get"
    ensures Replies([line], snapshot) == []
  {
  }

  class UnityPythonTcp {
    /** seq: the number of the latest snapshot. */
    var seqNo: int
    /** latestJson: the cached snapshot. */
    var latestSnapshot: Snapshot

    /** The cached snapshot carries the current number. */
    ghost predicate Valid()
      reads this
    {
      latestSnapshot.seqNo == seqNo
    }

    /** The field initialisers: number 0 and the initial snapshot. */
    constructor ()
      ensures Valid() && seqNo == 0 && latestSnapshot == InitialSnapshot
    {
      seqNo := 0;
      latestSnapshot := InitialSnapshot;
    }

    /**
     * FixedUpdate. ikAssigned says whether the solver is set; targetDeg and currentDeg are the
     * arrays its angle getters returned (null when there is none), gripperGap what its gap
     * getter returned and ts the realtime clock.
     */
    method FixedUpdate(ikAssigned: bool, targetDeg: array?<Float>, currentDeg: array?<Float>,
                       gripperGap: real, ts: real)
      requires Valid()
      requires targetDeg != null && currentDeg != null ==> targetDeg != currentDeg
      modifies this, targetDeg, currentDeg
      ensures Valid()
      ensures var complete := ikAssigned && targetDeg != null && targetDeg.Length >= PiperIK.JointCount
          && currentDeg != null && currentDeg.Length >= PiperIK.JointCount;
        && (!complete ==>
              seqNo == old(seqNo) && latestSnapshot == old(latestSnapshot)
              && (targetDeg != null ==> unchanged(targetDeg))
              && (currentDeg != null ==> unchanged(currentDeg)))
        && (complete ==>
              && seqNo == old(seqNo) + 1
              && targetDeg[..] == Sanitized(old(targetDeg[..]))
              && currentDeg[..] == Sanitized(old(currentDeg[..]))
              && latestSnapshot == Snapshot(seqNo, ts, targetDeg[..], currentDeg[..], PiperJaw(gripperGap)))
    {
      if !ikAssigned {
        return;
      }
      if targetDeg == null || targetDeg.Length < PiperIK.JointCount {
        return;
      }
      if currentDeg == null || currentDeg.Length < PiperIK.JointCount {
        return;
      }
      var i := 0;
      while i < PiperIK.JointCount
        modifies targetDeg, currentDeg
        invariant 0 <= i <= PiperIK.JointCount
        invariant forall k :: 0 <= k < targetDeg.Length ==>
          targetDeg[k] == (if k < i then Sanitized(old(targetDeg[..]))[k] else old(targetDeg[k]))
        invariant forall k :: 0 <= k < currentDeg.Length ==>
          currentDeg[k] == (if k < i then Sanitized(old(currentDeg[..]))[k] else old(currentDeg[k]))
      {
        if !targetDeg[i].IsFinite() {
          targetDeg[i] := Finite(0.0);
        }
        if !currentDeg[i].IsFinite() {
          currentDeg[i] := Finite(0.0);
        }
        i := i + 1;
      }
      assert targetDeg[..] == Sanitized(old(targetDeg[..]));
      assert currentDeg[..] == Sanitized(old(currentDeg[..]));
      var ratio := InverseLerp(UnityClosedM, UnityOpenM, gripperGap);
      var piperJaw := RoundHalfEven(Lerp(PiperJawMin, PiperJawMax, ratio));
      seqNo := seqNo + 1;
      latestSnapshot := Snapshot(seqNo, ts, targetDeg[..], currentDeg[..], piperJaw);
    }

    /** Handle: one connection's request lines, answered in order with the cached snapshot. */
    method Handle(lines: seq<string>) returns (written: seq<Snapshot>)
      ensures written == Replies(lines, latestSnapshot)
    {
      written := [];
      var k := 0;
      while k < |lines|
        invariant 0 <= k <= |lines|
        invariant written == Replies(lines[..k], latestSnapshot)
      {
        var line := lines[k];
        assert lines[..k + 1][..k] == lines[..k];
        if line == "get" {
          var snapshot := latestSnapshot;
          written := written + [snapshot];
        }
        k := k + 1;
      }
      assert lines[..|lines|] == lines;
    }
  }
}
