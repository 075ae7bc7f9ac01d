/**
 * The robot-side client: it requests the latest snapshot with a "get" line and turns the
 * decoded reply into one joint command (integer millidegrees) and one gripper command.
 *
 * The robot SDK calls are returned as command records; None stands for the function
 * returning False without sending anything.
 */
module PiperMove {
  import opened Wrappers
  import opened UnityMath
  import UnityPythonTcp
  import PiperIK

  /** A value as json.loads returns it; an object keeps the last value of a repeated key. */
  datatype Json =
    | JNull
    | JBool(b: bool)
    | JNumber(n: Float)
    | JString(s: string)
    | JArray(items: seq<Json>)
    | JObject(fields: map<string, Json>)

  /** JointCtrl with its six joint targets in millidegrees. */
  datatype JointCommand = JointCtrl(millidegrees: seq<int>)

  /** GripperCtrl(position, speed, code, set_zero). */
  datatype GripperCommand = GripperCtrl(position: int, speed: int, code: int, setZero: int)

  /** Radians to millidegrees. */
  const RadianFactor: real := 57295.7795
  /** Degrees to millidegrees. */
  const DegreeFactor: real := 1000.0
  /** The largest absolute value at which a pose is taken to be in radians. */
  const RadianThreshold: real := 3.2
  /** gripper_speed */
  const GripperSpeed: int := 1000
  /** The line Unity_Get_Date sends to request a snapshot. */
  const GetRequest: string := "get"

  // ---------------------------------------------------------------------------------------
  // Python conversions

  /** dict.get(key): the value when data is an object that has the key. */
  function Get(data: Json, key: string): (r: Option<Json>)
    ensures r.Some? <==> data.JObject? && key in data.fields
    ensures r.Some? ==> r.value == data.fields[key]
  {
    if data.JObject? && key in data.fields then Some(data.fields[key]) else None
  }

  /**
   * float(x) for a decoded value: numbers (including NaN and the infinities) and booleans
   * convert; every other kind raises.
   */
  function PyFloat(j: Json): (r: Option<Float>)
    ensures r.Some? <==> j.JNumber? || j.JBool?
    ensures j.JNumber? ==> r == Some(j.n)
    ensures j.JBool? ==> r == Some(Finite(if j.b then 1.0 else 0.0))
  {
    match j
    case JNumber(n) => Some(n)
    case JBool(b) => Some(Finite(if b then 1.0 else 0.0))
    case _ => None
  }

  /** int(x) for a decoded value: a finite number is truncated toward zero, a boolean is 0 or 1. */
  function PyInt(j: Json): (r: Option<int>)
    ensures r.Some? <==> (j.JNumber? && j.n.IsFinite()) || j.JBool?
    ensures j.JNumber? && j.n.IsFinite() && j.n.value >= 0.0 ==> r.value as real <= j.n.value < r.value as real + 1.0
    ensures j.JNumber? && j.n.IsFinite() && j.n.value < 0.0 ==> r.value as real - 1.0 < j.n.value <= r.value as real
    ensures j.JBool? ==> r == Some(if j.b then 1 else 0)
  {
    match j
    case JNumber(Finite(x)) => Some(Trunc(x))
    case JBool(b) => Some(if b then 1 else 0)
    case _ => None
  }

  lemma PyIntOfInteger(k: int)
    ensures PyInt(JNumber(Finite(k as real))) == Some(k)
  {
  }

  // ---------------------------------------------------------------------------------------
  // Piper_Joint_Move

  /** The angle list: target_deg when it is a list, otherwise current_deg when that is one. */
  function SelectAngles(data: Json): (r: Option<seq<Json>>)
    ensures Get(data, "target_deg").Some? && Get(data, "target_deg").value.JArray?
      ==> r == Some(Get(data, "target_deg").value.items)
    ensures !(Get(data, "target_deg").Some? && Get(data, "target_deg").value.JArray?)
      ==> if Get(data, "current_deg").Some? && Get(data, "current_deg").value.JArray?
          then r == Some(Get(data, "current_deg").value.items)
          else r.None?
  {
    var target := Get(data, "target_deg");
    var current := Get(data, "current_deg");
    if target.Some? && target.value.JArray? then Some(target.value.items)
    else if current.Some? && current.value.JArray? then Some(current.value.items)
    else None
  }

  /** float(arr[i]) for the first six entries, when every one converts to a finite number. */
  function FirstSixValues(items: seq<Json>): (r: Option<seq<real>>)
    requires |items| >= PiperIK.JointCount
    ensures r.Some? <==> forall i :: 0 <= i < PiperIK.JointCount ==> PyFloat(items[i]).Some? && PyFloat(items[i]).value.IsFinite()
    ensures r.Some? ==> |r.value| == PiperIK.JointCount && forall i :: 0 <= i < PiperIK.JointCount ==> r.value[i] == PyFloat(items[i]).value.value
  {
    if forall i :: 0 <= i < PiperIK.JointCount ==> PyFloat(items[i]).Some? && PyFloat(items[i]).value.IsFinite()
    then Some(seq(PiperIK.JointCount, i requires 0 <= i < PiperIK.JointCount => PyFloat(items[i]).value.value))
    else None
  }

  /** max(abs(v) for v in vals). */
  function MaxAbs(vals: seq<real>): (m: real)
    requires |vals| > 0
    ensures forall i :: 0 <= i < |vals| ==> Abs(vals[i]) <= m
    ensures exists i :: 0 <= i < |vals| && m == Abs(vals[i])
  {
    if |vals| == 1 then Abs(vals[0])
    else
      var rest := MaxAbs(vals[1..]);
      assert forall i :: 1 <= i < |vals| ==> vals[i] == vals[1..][i - 1];
      if Abs(vals[0]) > rest then Abs(vals[0]) else rest
  }

  /** The unit guess: radians when no value exceeds RadianThreshold, degrees otherwise. */
  function Factor(vals: seq<real>): (f: real)
    requires |vals| > 0
    ensures (forall i :: 0 <= i < |vals| ==> Abs(vals[i]) <= RadianThreshold) ==> f == RadianFactor
    ensures (exists i :: 0 <= i < |vals| && Abs(vals[i]) > RadianThreshold) ==> f == DegreeFactor
  {
    if MaxAbs(vals) <= RadianThreshold then RadianFactor else DegreeFactor
  }

  /** int(round(v * factor)) for each value: the nearest integer, within half a unit. */
  function Scaled(vals: seq<real>, factor: real): (r: seq<int>)
    ensures |r| == |vals|
    ensures forall i :: 0 <= i < |vals| ==>
      (r[i] as real) - 0.5 <= vals[i] * factor <= (r[i] as real) + 0.5
  {
    if |vals| == 0 then []
    else
      var rest := Scaled(vals[1..], factor);
      assert forall i :: 1 <= i < |vals| ==> vals[i] == vals[1..][i - 1];
      [RoundHalfEven(vals[0] * factor)] + rest
  }

  /** Each command has the sign of its angle, or is 0. */
  lemma ScaledSign(vals: seq<real>, factor: real)
    requires factor > 0.0
    ensures forall i :: 0 <= i < |vals| ==>
      var r := Scaled(vals, factor)[i];
      (vals[i] > 0.0 ==> r >= 0) && (vals[i] < 0.0 ==> r <= 0) && (vals[i] == 0.0 ==> r == 0)
  {
    forall i | 0 <= i < |vals|
      ensures var r := Scaled(vals, factor)[i];
        (vals[i] > 0.0 ==> r >= 0) && (vals[i] < 0.0 ==> r <= 0) && (vals[i] == 0.0 ==> r == 0)
    {
      ProductSign(vals[i], factor);
      RoundHalfEvenSign(vals[i] * factor);
    }
  }

  /** Piper_Joint_Move as written: the joint command it sends, or None for False. */
  function PiperJointMove(data: Json): (r: Option<JointCommand>)
    ensures r.Some? <==> && SelectAngles(data).Some? && |SelectAngles(data).value| >= PiperIK.JointCount
                         && FirstSixValues(SelectAngles(data).value).Some?
    ensures r.Some? ==> var vals := FirstSixValues(SelectAngles(data).value).value;
      r.value == JointCtrl(Scaled(vals, Factor(vals)))
  {
    var arr := SelectAngles(data);
    if arr.None? || |arr.value| < PiperIK.JointCount then None
    else
      var vals := FirstSixValues(arr.value);
      if vals.None? then None
      else Some(JointCtrl(Scaled(vals.value, Factor(vals.value))))
  }

  /** Piper_Joint_Move with the evident intent for angles in degrees: always scaled by 1000. */
  function PiperJointMoveDegrees(data: Json): (r: Option<JointCommand>)
    ensures r.Some? <==> PiperJointMove(data).Some?
    ensures r.Some? ==> var vals := FirstSixValues(SelectAngles(data).value).value;
      && |r.value.millidegrees| == PiperIK.JointCount
      && forall i :: 0 <= i < PiperIK.JointCount ==>
           (r.value.millidegrees[i] as real) - 0.5 <= vals[i] * 1000.0 <= (r.value.millidegrees[i] as real) + 0.5
  {
    var arr := SelectAngles(data);
    if arr.None? || |arr.value| < PiperIK.JointCount then None
    else
      var vals := FirstSixValues(arr.value);
      if vals.None? then None
      else Some(JointCtrl(Scaled(vals.value, DegreeFactor)))
  }

  /** A value that is not an object, or one without a list of six convertible angles, sends nothing. */
  lemma PiperJointMoveRejects(data: Json)
    ensures !data.JObject? ==> PiperJointMove(data).None?
    ensures SelectAngles(data).Some? && |SelectAngles(data).value| < PiperIK.JointCount ==> PiperJointMove(data).None?
    ensures SelectAngles(data).None? ==> PiperJointMove(data).None?
  {
  }

  /** A list target_deg wins over current_deg, whatever current_deg holds. */
  lemma PiperJointMovePrefersTarget(fields: map<string, Json>, current: Json)
    requires "target_deg" in fields && fields["target_deg"].JArray?
    ensures PiperJointMove(JObject(fields)) == PiperJointMove(JObject(fields["current_deg" := current]))
  {
    var other := fields["current_deg" := current];
    assert other["target_deg"] == fields["target_deg"];
  }

  /**
   * Only the first six entries matter: entries after them never change the command, whether
   * the list is target_deg or, when target_deg is not a list, the current_deg fallback.
   */
  lemma PiperJointMoveUsesFirstSix(fields: map<string, Json>, items: seq<Json>, extra: seq<Json>)
    requires |items| >= PiperIK.JointCount
    ensures PiperJointMove(JObject(fields["target_deg" := JArray(items + extra)]))
         == PiperJointMove(JObject(fields["target_deg" := JArray(items)]))
    ensures !("target_deg" in fields && fields["target_deg"].JArray?) ==>
      (PiperJointMove(JObject(fields["current_deg" := JArray(items + extra)]))
       == PiperJointMove(JObject(fields["current_deg" := JArray(items)])))
  {
    SelectTargetList(fields, items + extra);
    SelectTargetList(fields, items);
    PiperJointMoveOfPrefix(JObject(fields["target_deg" := JArray(items + extra)]),
                           JObject(fields["target_deg" := JArray(items)]), items, extra);
    if !("target_deg" in fields && fields["target_deg"].JArray?) {
      SelectCurrentList(fields, items + extra);
      SelectCurrentList(fields, items);
      PiperJointMoveOfPrefix(JObject(fields["current_deg" := JArray(items + extra)]),
                             JObject(fields["current_deg" := JArray(items)]), items, extra);
    }
  }

  /** A list stored under target_deg is the one selected. */
  lemma SelectTargetList(fields: map<string, Json>, items: seq<Json>)
    ensures SelectAngles(JObject(fields["target_deg" := JArray(items)])) == Some(items)
  {
  }

  /** Without a list under target_deg, a list stored under current_deg is the one selected. */
  lemma SelectCurrentList(fields: map<string, Json>, items: seq<Json>)
    requires !("target_deg" in fields && fields["target_deg"].JArray?)
    ensures SelectAngles(JObject(fields["current_deg" := JArray(items)])) == Some(items)
  {
    var t := fields["current_deg" := JArray(items)];
    assert ("target_deg" in t) == ("target_deg" in fields);
    assert "target_deg" in fields ==> t["target_deg"] == fields["target_deg"];
  }

  /** Two messages whose selected lists agree on their first six entries send the same command. */
  lemma PiperJointMoveOfPrefix(long: Json, short: Json, items: seq<Json>, extra: seq<Json>)
    requires |items| >= PiperIK.JointCount
    requires SelectAngles(long) == Some(items + extra) && SelectAngles(short) == Some(items)
    ensures PiperJointMove(long) == PiperJointMove(short)
  {
    FirstSixValuesOfPrefix(items, extra);
  }

  /** The first six values of a list do not depend on what follows them. */
  lemma FirstSixValuesOfPrefix(items: seq<Json>, extra: seq<Json>)
    requires |items| >= PiperIK.JointCount
    ensures FirstSixValues(items + extra) == FirstSixValues(items)
  {
    var longer := items + extra;
    assert forall i :: 0 <= i < PiperIK.JointCount ==> longer[i] == items[i];
    assert forall i :: 0 <= i < PiperIK.JointCount ==> PyFloat(longer[i]) == PyFloat(items[i]);
    if FirstSixValues(items).Some? {
      assert FirstSixValues(longer).value == FirstSixValues(items).value;
    }
  }

  /** When some angle exceeds the threshold the code and the corrected version agree. */
  lemma PiperJointMoveAgreesAboveThreshold(data: Json)
    requires PiperJointMove(data).Some?
    requires exists i :: 0 <= i < PiperIK.JointCount && Abs(FirstSixValues(SelectAngles(data).value).value[i]) > RadianThreshold
    ensures PiperJointMove(data) == PiperJointMoveDegrees(data)
  {
  }

  /** The six angles all 0 except joint 1 at 1 degree. */
  function OneDegreeItems(): (items: seq<Json>)
    ensures |items| == PiperIK.JointCount && items[0] == JNumber(Finite(1.0))
    ensures forall i :: 1 <= i < PiperIK.JointCount ==> items[i] == JNumber(Finite(0.0))
  {
    [JNumber(Finite(1.0)), JNumber(Finite(0.0)), JNumber(Finite(0.0)),
     JNumber(Finite(0.0)), JNumber(Finite(0.0)), JNumber(Finite(0.0))]
  }

  /** That pose as target_deg. */
  function OneDegreePose(): Json
  {
    JObject(map["target_deg" := JArray(OneDegreeItems())])
  }

  lemma RoundOfRadianFactor()
    ensures RoundHalfEven(1.0 * RadianFactor) == 57296
  {
    assert (57295.7795).Floor == 57295;
  }

  lemma ScaledHead(vals: seq<real>, factor: real)
    requires |vals| > 0
    ensures Scaled(vals, factor)[0] == RoundHalfEven(vals[0] * factor)
  {
  }

  /** The values Piper_Joint_Move reads from the one-degree pose. */
  lemma OneDegreeValues()
    ensures SelectAngles(OneDegreePose()) == Some(OneDegreeItems())
    ensures FirstSixValues(OneDegreeItems()) == Some([1.0, 0.0, 0.0, 0.0, 0.0, 0.0])
  {
    var items := OneDegreeItems();
    var vals := [1.0, 0.0, 0.0, 0.0, 0.0, 0.0];
    assert forall i :: 0 <= i < PiperIK.JointCount ==> PyFloat(items[i]) == Some(Finite(vals[i]));
    assert FirstSixValues(items).value == vals;
  }

  /** The one-degree pose reads as radians. */
  lemma OneDegreeFactor()
    ensures Factor([1.0, 0.0, 0.0, 0.0, 0.0, 0.0]) == RadianFactor
  {
    var vals := [1.0, 0.0, 0.0, 0.0, 0.0, 0.0];
    assert forall i :: 0 <= i < |vals| ==> Abs(vals[i]) <= RadianThreshold;
  }

  /**
   * A pose of 1 degree on joint 1 is taken for radians: joint 1 is commanded to 57296
   * millidegrees (about 57.3 degrees) instead of 1000.
   */
  lemma OneDegreeTakenForRadians()
    ensures PiperJointMove(OneDegreePose()).Some?
      && PiperJointMove(OneDegreePose()).value.millidegrees[0] == 57296
  {
    var vals := [1.0, 0.0, 0.0, 0.0, 0.0, 0.0];
    OneDegreeValues();
    OneDegreeFactor();
    RoundOfRadianFactor();
    ScaledHead(vals, RadianFactor);
  }

  /** The corrected conversion commands the same pose as 1000 millidegrees. */
  lemma OneDegreeCorrected()
    ensures PiperJointMoveDegrees(OneDegreePose()).Some?
      && PiperJointMoveDegrees(OneDegreePose()).value.millidegrees[0] == 1000
  {
    var vals := [1.0, 0.0, 0.0, 0.0, 0.0, 0.0];
    OneDegreeValues();
    RoundHalfEvenOfInteger(1000);
    ScaledHead(vals, DegreeFactor);
  }

  // ---------------------------------------------------------------------------------------
  // Piper_Gripper_Move

  /** Piper_Gripper_Move: the gripper command it sends, or None for False. */
  function PiperGripperMove(data: Json): (r: Option<GripperCommand>)
    ensures r.Some? <==> Get(data, "piper_jaw").Some? && PyInt(Get(data, "piper_jaw").value).Some?
    ensures r.Some? ==> && r.value.position >= 0
                        && r.value.speed == GripperSpeed && r.value.code == 0x01 && r.value.setZero == 0x00
    ensures r.Some? ==> var um := PyInt(Get(data, "piper_jaw").value).value;
      (um >= 0 ==> r.value.position == um) && (um < 0 ==> r.value.position == 0)
  {
    var jaw := Get(data, "piper_jaw");
    if jaw.None? then None
    else
      var um := PyInt(jaw.value);
      if um.None? then None
      else
        var um := if um.value < 0 then 0 else um.value;
        Some(GripperCtrl(Abs(um as real) as int, GripperSpeed, 0x01, 0x00))
  }

  // ---------------------------------------------------------------------------------------
  // Unity_Get_Date

  /**
   * Unity_Get_Date: line is what readline returned after the request, decoded what json.loads
   * made of it once decoded and stripped (None when either step raised).
   */
  function UnityGetDate(line: seq<bv8>, decoded: Option<Json>): (r: Option<Json>)
    ensures |line| == 0 ==> r.None?
    ensures |line| > 0 ==> r == decoded
  {
    if |line| == 0 then None else decoded
  }

  // ---------------------------------------------------------------------------------------
  // The snapshot as the client decodes it

  function Numbers(xs: seq<Float>): (r: seq<Json>)
    ensures |r| == |xs| && forall i :: 0 <= i < |xs| ==> r[i] == JNumber(xs[i])
  {
    seq(|xs|, i requires 0 <= i < |xs| => JNumber(xs[i]))
  }

  /**
   * The decoded form of a snapshot: an object whose target_deg and current_deg are lists of the
   * snapshot's angles and whose piper_jaw is its jaw value.
   */
  function SnapshotJson(s: UnityPythonTcp.Snapshot): (j: Json)
    ensures Get(j, "target_deg") == Some(JArray(Numbers(s.targetDeg)))
    ensures Get(j, "current_deg") == Some(JArray(Numbers(s.currentDeg)))
    ensures Get(j, "piper_jaw") == Some(JNumber(Finite(s.piperJaw as real)))
    ensures Get(j, "seq") == Some(JNumber(Finite(s.seqNo as real)))
  {
    JObject(map[
      "seq" := JNumber(Finite(s.seqNo as real)),
      "ts" := JNumber(Finite(s.ts)),
      "target_deg" := JArray(Numbers(s.targetDeg)),
      "current_deg" := JArray(Numbers(s.currentDeg)),
      "piper_jaw" := JNumber(Finite(s.piperJaw as real))])
  }

  /** The request the client sends is answered with exactly the cached snapshot. */
  lemma GetRequestAnswered(snapshot: UnityPythonTcp.Snapshot)
    ensures UnityPythonTcp.Replies([GetRequest], snapshot) == [snapshot]
  {
    assert [GetRequest][..0] == [];
  }

  /** The jaw of a published snapshot reaches the gripper unchanged. */
  lemma GripperOfSnapshot(s: UnityPythonTcp.Snapshot, gap: real)
    requires s.piperJaw == UnityPythonTcp.PiperJaw(gap)
    ensures PiperGripperMove(SnapshotJson(s)) == Some(GripperCtrl(s.piperJaw, GripperSpeed, 0x01, 0x00))
  {
    PyIntOfInteger(s.piperJaw);
  }

  /**
   * A published snapshot, whose first six target angles are sanitised, always yields a joint
   * command; the corrected conversion commands those angles in millidegrees.
   */
  lemma JointOfSnapshot(s: UnityPythonTcp.Snapshot)
    requires |s.targetDeg| >= PiperIK.JointCount
    requires forall i :: 0 <= i < PiperIK.JointCount ==> s.targetDeg[i].IsFinite()
    ensures PiperJointMove(SnapshotJson(s)).Some?
    ensures var cmd := PiperJointMoveDegrees(SnapshotJson(s)).value;
      forall i :: 0 <= i < PiperIK.JointCount ==>
        (cmd.millidegrees[i] as real) - 0.5 <= s.targetDeg[i].value * 1000.0 <= (cmd.millidegrees[i] as real) + 0.5
  {
    var items := Numbers(s.targetDeg);
    assert SelectAngles(SnapshotJson(s)) == Some(items);
    assert forall i :: 0 <= i < PiperIK.JointCount ==> PyFloat(items[i]) == Some(s.targetDeg[i]);
  }
}
