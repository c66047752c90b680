/** The rule-based judge of a high plank: five bilateral angle checks, visited in a
    fixed order, each comparing the left and the right angle (in degrees) with a
    closed interval; the first failing check names what to correct. */
module Empirical {
  import opened Wrappers
  import opened MathOps
  import opened Types
  import opened Point3D

  /** A closed interval `[min, max]` of degrees. */
  datatype Interval = Interval(min: real, max: real)

  /** One entry of the check chain: the angle on each side of the body, the
      accepted interval and the message shown when either side falls outside it. */
  datatype Check = Check(left: Triplet, right: Triplet, interval: Interval, message: string)

  const WristElbowShoulder: Check := Check(
    Triplet(LeftWrist, LeftElbow, LeftShoulder),
    Triplet(RightWrist, RightElbow, RightShoulder),
    Interval(0.0, 45.0),
    "Alinhe os cotovelos com os punhos e ombros")

  const WristShoulders: Check := Check(
    Triplet(LeftWrist, LeftShoulder, RightShoulder),
    Triplet(RightWrist, RightShoulder, LeftShoulder),
    Interval(75.0, 100.0),
    "Os braços estão muito abertos ou fechados")

  const WristShoulderHip: Check := Check(
    Triplet(LeftWrist, LeftShoulder, LeftHip),
    Triplet(RightWrist, RightShoulder, RightHip),
    Interval(80.0, 130.0),
    "Mantenha os punhos alinhados com os ombros e quadris")

  const ShoulderHipKnee: Check := Check(
    Triplet(LeftShoulder, LeftHip, LeftKnee),
    Triplet(RightShoulder, RightHip, RightKnee),
    Interval(0.0, 25.0),
    "Mantenha os joelhos alinhados com os quadris e ombros")

  const HipKneeAnkle: Check := Check(
    Triplet(LeftHip, LeftKnee, LeftAnkle),
    Triplet(RightHip, RightKnee, RightAnkle),
    Interval(0.0, 25.0),
    "Mantenha os tornozelos alinhados com os quadris e joelhos")

  /** The chain in the order it is visited. */
  const Checks: seq<Check> := [WristElbowShoulder, WristShoulders, WristShoulderHip, ShoulderHipKnee, HipKneeAnkle]

  /** The verdict for a pose that passes every check. */
  const Correct: ValidationResult := ValidationResult("Correto! Continue assim!", "green", true)

  /** The verdict for a pose that fails a check with the given message. */
  function Rejected(message: string): ValidationResult {
    ValidationResult(message, "red", false)
  }

  /** `Utils.isBetween(v, min, max)`, read as membership in the closed interval;
      a NaN angle (None) is never inside. */
  predicate IsBetween(v: Option<real>, i: Interval) {
    v.Some? && i.min <= v.value <= i.max
  }

  /** The angle of a triplet as the checks measure it: degrees, not normalised. */
  function Angle(m: Ops, pose: seq<Point3>, t: Triplet): Option<real>
    requires IsPose(pose)
  {
    GetAngleFromPointsTriplet(m, pose, t, true, false)
  }

  /** A check passes when both the left and the right angle lie in its interval. */
  predicate Passes(m: Ops, pose: seq<Point3>, c: Check)
    requires IsPose(pose)
  {
    IsBetween(Angle(m, pose, c.left), c.interval) && IsBetween(Angle(m, pose, c.right), c.interval)
  }

  /** `predict`: the if/early-return chain, one branch per check. */
  function Predict(m: Ops, pose: seq<Point3>): ValidationResult
    requires IsPose(pose)
  {
    if !Passes(m, pose, WristElbowShoulder) then Rejected(WristElbowShoulder.message)
    else if !Passes(m, pose, WristShoulders) then Rejected(WristShoulders.message)
    else if !Passes(m, pose, WristShoulderHip) then Rejected(WristShoulderHip.message)
    else if !Passes(m, pose, ShoulderHipKnee) then Rejected(ShoulderHipKnee.message)
    else if !Passes(m, pose, HipKneeAnkle) then Rejected(HipKneeAnkle.message)
    else Correct
  }

  /** A reference reading of any check chain: walk it and stop at the first failure. */
  function Evaluate(m: Ops, pose: seq<Point3>, checks: seq<Check>): ValidationResult
    requires IsPose(pose)
    decreases |checks|
  {
    if checks == [] then Correct
    else if !Passes(m, pose, checks[0]) then Rejected(checks[0].message)
    else Evaluate(m, pose, checks[1..])
  }

  /** The mirror image of a landmark used by the checks: left and right swapped. */
  function Mirror(k: LandmarkKey): LandmarkKey {
    match k
    case LeftShoulder => RightShoulder
    case RightShoulder => LeftShoulder
    case LeftElbow => RightElbow
    case RightElbow => LeftElbow
    case LeftWrist => RightWrist
    case RightWrist => LeftWrist
    case LeftHip => RightHip
    case RightHip => LeftHip
    case LeftKnee => RightKnee
    case RightKnee => LeftKnee
    case LeftAnkle => RightAnkle
    case RightAnkle => LeftAnkle
    case _ => k
  }

  function MirrorTriplet(t: Triplet): Triplet {
    Triplet(Mirror(t.first), Mirror(t.middle), Mirror(t.last))
  }

  // ---------------------------------------------------------------------------
  // Properties

  /** The five intervals, in visiting order. */
  lemma IntervalTable()
    ensures |Checks| == 5
    ensures Checks[0].interval == Interval(0.0, 45.0)
    ensures Checks[1].interval == Interval(75.0, 100.0)
    ensures Checks[2].interval == Interval(80.0, 130.0)
    ensures Checks[3].interval == Interval(0.0, 25.0)
    ensures Checks[4].interval == Interval(0.0, 25.0)
    ensures forall i :: 0 <= i < |Checks| ==> 0.0 <= Checks[i].interval.min <= Checks[i].interval.max
  {
  }

  /** Every check compares a left angle with its mirror image on the right side. */
  lemma ChecksAreBilateral(i: int)
    requires 0 <= i < |Checks|
    ensures Bilateral(Checks[i])
  {
    var c := Checks[i];
    MirrorTripletInvolution(c.left);
    if i == 0 {
      assert c.right == MirrorTriplet(WristElbowShoulder.left);
    } else if i == 1 {
      assert c.right == MirrorTriplet(WristShoulders.left);
    } else if i == 2 {
      assert c.right == MirrorTriplet(WristShoulderHip.left);
    } else if i == 3 {
      assert c.right == MirrorTriplet(ShoulderHipKnee.left);
    } else {
      assert c.right == MirrorTriplet(HipKneeAnkle.left);
    }
  }

  /** Mirroring twice gives the triplet back. */
  lemma MirrorTripletInvolution(t: Triplet)
    ensures MirrorTriplet(MirrorTriplet(t)) == t
  {
    MirrorInvolution(t.first);
    MirrorInvolution(t.middle);
    MirrorInvolution(t.last);
  }

  lemma MirrorInvolution(k: LandmarkKey)
    ensures Mirror(Mirror(k)) == k
  {
  }

  /** The right angle of the check is the mirror image of the left one, and back. */
  predicate Bilateral(c: Check) {
    c.right == MirrorTriplet(c.left) && c.left == MirrorTriplet(c.right)
  }

  /** The five messages are distinct, and none is the success message, so the
      verdict names the check that failed. */
  lemma MessagesIdentifyCheck(i: int, j: int)
    requires 0 <= i < |Checks| && 0 <= j < |Checks|
    ensures Checks[i].message == Checks[j].message ==> i == j
    ensures Checks[i].message != Correct.text
  {
  }

  /** A check fails exactly when one side's angle is undefined or outside the interval. */
  lemma FailsIffOneSideOutside(m: Ops, pose: seq<Point3>, c: Check)
    requires IsPose(pose)
    ensures !Passes(m, pose, c) <==>
      || Angle(m, pose, c.left).None?
      || Angle(m, pose, c.right).None?
      || Angle(m, pose, c.left).value < c.interval.min
      || Angle(m, pose, c.left).value > c.interval.max
      || Angle(m, pose, c.right).value < c.interval.min
      || Angle(m, pose, c.right).value > c.interval.max
  {
  }

  /** One step of the walk: a passing head hands over to the rest of the chain. */
  lemma EvaluateStep(m: Ops, pose: seq<Point3>, c: Check, rest: seq<Check>)
    requires IsPose(pose)
    ensures Evaluate(m, pose, [c] + rest) ==
      if !Passes(m, pose, c) then Rejected(c.message) else Evaluate(m, pose, rest)
  {
    assert ([c] + rest)[0] == c;
    assert ([c] + rest)[1..] == rest;
  }

  /** The branch chain is the table walked in order. */
  lemma PredictIsTableWalk(m: Ops, pose: seq<Point3>)
    requires IsPose(pose)
    ensures Predict(m, pose) == Evaluate(m, pose, Checks)
  {
    EvaluateStep(m, pose, WristElbowShoulder, [WristShoulders, WristShoulderHip, ShoulderHipKnee, HipKneeAnkle]);
    EvaluateStep(m, pose, WristShoulders, [WristShoulderHip, ShoulderHipKnee, HipKneeAnkle]);
    EvaluateStep(m, pose, WristShoulderHip, [ShoulderHipKnee, HipKneeAnkle]);
    EvaluateStep(m, pose, ShoulderHipKnee, [HipKneeAnkle]);
    EvaluateStep(m, pose, HipKneeAnkle, []);
  }

  /** A walk of any chain is correct exactly when every check passes; otherwise it
      returns, in red, the message of the first check that fails. */
  lemma {:induction false} EvaluateFirstFailure(m: Ops, pose: seq<Point3>, checks: seq<Check>)
    requires IsPose(pose)
    ensures Evaluate(m, pose, checks).isCorrect <==> forall i :: 0 <= i < |checks| ==> Passes(m, pose, checks[i])
    ensures Evaluate(m, pose, checks).isCorrect ==> Evaluate(m, pose, checks) == Correct
    ensures !Evaluate(m, pose, checks).isCorrect ==> Evaluate(m, pose, checks).color == "red"
    ensures forall i :: (0 <= i < |checks| && !Passes(m, pose, checks[i]) &&
      (forall j :: 0 <= j < i ==> Passes(m, pose, checks[j]))) ==>
      Evaluate(m, pose, checks) == Rejected(checks[i].message)
  {
    EvaluateAllPass(m, pose, checks);
    forall i | 0 <= i < |checks| && !Passes(m, pose, checks[i]) &&
      (forall j :: 0 <= j < i ==> Passes(m, pose, checks[j]))
      ensures Evaluate(m, pose, checks) == Rejected(checks[i].message)
    {
      EvaluateStopsAt(m, pose, checks, i);
    }
  }

  /** The walk is correct, with the success verdict, exactly when every check passes. */
  lemma {:induction false} EvaluateAllPass(m: Ops, pose: seq<Point3>, checks: seq<Check>)
    requires IsPose(pose)
    ensures Evaluate(m, pose, checks).isCorrect <==> forall i :: 0 <= i < |checks| ==> Passes(m, pose, checks[i])
    ensures Evaluate(m, pose, checks).isCorrect ==> Evaluate(m, pose, checks) == Correct
    ensures !Evaluate(m, pose, checks).isCorrect ==> Evaluate(m, pose, checks).color == "red"
    decreases |checks|
  {
    if checks != [] && Passes(m, pose, checks[0]) {
      var rest := checks[1..];
      EvaluateAllPass(m, pose, rest);
      assert forall i :: 1 <= i < |checks| ==> checks[i] == rest[i - 1];
    }
  }

  /** The walk stops at the first failing check `i` with its message. */
  lemma {:induction false} EvaluateStopsAt(m: Ops, pose: seq<Point3>, checks: seq<Check>, i: int)
    requires IsPose(pose) && 0 <= i < |checks| && !Passes(m, pose, checks[i])
    requires forall j :: 0 <= j < i ==> Passes(m, pose, checks[j])
    ensures Evaluate(m, pose, checks) == Rejected(checks[i].message)
    decreases i
  {
    if i > 0 {
      var rest := checks[1..];
      assert Passes(m, pose, checks[0]);
      forall j | 0 <= j < i - 1 ensures Passes(m, pose, rest[j]) {
        assert rest[j] == checks[j + 1];
      }
      assert rest[i - 1] == checks[i];
      EvaluateStopsAt(m, pose, rest, i - 1);
    }
  }

  /** Checks after the first failing one play no part: the walk of the prefix that
      ends at the failure gives the same verdict. */
  lemma {:induction false} LaterChecksIgnored(m: Ops, pose: seq<Point3>, checks: seq<Check>, i: int)
    requires IsPose(pose)
    requires 0 <= i < |checks| && !Passes(m, pose, checks[i])
    ensures Evaluate(m, pose, checks) == Evaluate(m, pose, checks[..i + 1])
    decreases i
  {
    if i > 0 && Passes(m, pose, checks[0]) {
      LaterChecksIgnored(m, pose, checks[1..], i - 1);
      assert checks[..i + 1][1..] == checks[1..][..i];
    }
  }

  /** `predict` is correct, green, with the success message, exactly when all ten
      angles lie in their intervals; every other verdict is red and incorrect and
      carries the message of the first failing check. */
  lemma PredictSpec(m: Ops, pose: seq<Point3>)
    requires IsPose(pose)
    ensures Predict(m, pose).isCorrect <==> forall i :: 0 <= i < |Checks| ==> Passes(m, pose, Checks[i])
    ensures Predict(m, pose).isCorrect ==> Predict(m, pose) == Correct
    ensures !Predict(m, pose).isCorrect ==> Predict(m, pose).color == "red"
    ensures forall i :: (0 <= i < |Checks| && !Passes(m, pose, Checks[i]) &&
      (forall j :: 0 <= j < i ==> Passes(m, pose, Checks[j]))) ==>
      Predict(m, pose) == Rejected(Checks[i].message)
  {
    PredictIsTableWalk(m, pose);
    EvaluateFirstFailure(m, pose, Checks);
  }

  /** The checks measure the raw sequential-edge angle in degrees. */
  lemma AngleIsUnnormalisedDegrees(m: Ops, pose: seq<Point3>, t: Triplet)
    requires IsPose(pose)
    ensures Angle(m, pose, t) ==
      GetAngle(m, Subtract(Joint(pose, t.middle), Joint(pose, t.first)),
                  Subtract(Joint(pose, t.last), Joint(pose, t.middle)), true)
  {
  }
}
