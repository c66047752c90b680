/** The fully connected networks: the body-centred basis and the normalised feature
    points fed to the points network, the reading of the network's output, and the
    load-once model field. The network's forward pass is a parameter. */
module Fcnn {
  import opened Wrappers
  import opened MathOps
  import opened ArgMax
  import opened Types
  import opened Point3D
  import opened CoordinateSystem

  /** The midpoint of a left and a right landmark. */
  function MidOf(pose: seq<Point3>, left: LandmarkKey, right: LandmarkKey): Point3
    requires IsPose(pose)
  {
    MidPoint(Joint(pose, left), Joint(pose, right))
  }

  /** `getCustomBasis`: origin between the feet, x axis from there to the wrists,
      y axis from the wrists to the shoulders. */
  function CustomBasis(pose: seq<Point3>): Frame
    requires IsPose(pose)
  {
    var wristMid := MidOf(pose, LeftWrist, RightWrist);
    var shoulderMid := MidOf(pose, LeftShoulder, RightShoulder);
    var footMid := MidOf(pose, LeftFootIndex, RightFootIndex);
    NewFrame(footMid, Subtract(wristMid, footMid), Subtract(shoulderMid, wristMid))
  }

  /** The twelve landmarks whose local coordinates are the features, in order. */
  const FeatureLandmarks: seq<LandmarkKey> := [
    LeftWrist, RightWrist, LeftElbow, RightElbow, LeftShoulder, RightShoulder,
    LeftHip, RightHip, LeftKnee, RightKnee, LeftAnkle, RightAnkle]

  /** `|shoulderMid - ankleMid|`, the body height used as the unit of length. */
  function Height(m: Ops, pose: seq<Point3>): real
    requires IsPose(pose)
  {
    Norm(m, Subtract(MidOf(pose, LeftShoulder, RightShoulder), MidOf(pose, LeftAnkle, RightAnkle)))
  }

  /** One coordinate divided by `h`; NaN stays NaN and a zero height gives no
      finite number. */
  function DivideCoordinate(c: Option<real>, h: real): Option<real> {
    if c.None? || h == 0.0 then None else Some(c.value / h)
  }

  /** A local point divided componentwise by `h`. */
  function DivideBy(p: LocalPoint, h: real): LocalPoint {
    LocalPoint(DivideCoordinate(p.x, h), DivideCoordinate(p.y, h), DivideCoordinate(p.z, h))
  }

  /** The network input: each feature landmark in the custom basis, divided by the
      height. None stands for coordinates that are not finite numbers. */
  function Features(m: Ops, pose: seq<Point3>): (r: seq<LocalPoint>)
    requires IsPose(pose)
    ensures |r| == |FeatureLandmarks|
  {
    var basis := CustomBasis(pose);
    var h := Height(m, pose);
    seq(|FeatureLandmarks|, i requires 0 <= i < |FeatureLandmarks| =>
      DivideBy(ToLocal(m, basis, Joint(pose, FeatureLandmarks[i])), h))
  }

  /** The network's answer before formatting: the class name (None for `undefined`)
      and the largest output (None for the `-Infinity` of an empty output). */
  datatype FcnnOutput = FcnnOutput(className: Option<string>, maxProb: Option<real>)

  const OutputLabels: seq<string> := ["Incorreto", "Correto"]

  /** `["Incorreto", "Correto"][indexOf(max)]` and the maximum itself. */
  function ReadOutput(output: seq<real>): FcnnOutput {
    var i := FirstMaxIndex(output);
    FcnnOutput(if 0 <= i < |OutputLabels| then Some(OutputLabels[i]) else None,
               if output == [] then None else Some(Max(output)))
  }

  /** A loaded network: its forward pass. */
  datatype Network = Network(forward: seq<LocalPoint> -> seq<real>)

  /** The three network models: two on feature points (same code, different file),
      one on angles. */
  datatype FcnnKind = PointsModel | CnnPointsModel | AnglesModel

  function ModelPath(kind: FcnnKind): string {
    match kind
    case PointsModel => "src/assets/models/fcnn-high-plank-points/full-body-model/model.json"
    case CnnPointsModel => "src/assets/models/cnn-high-plank-points/full-body-model/model.json"
    case AnglesModel => "src/assets/models/fcnn-high-plank-angles/full-body-model/model.json"
  }

  /** The angles model calls `Point3d.get_angle_from_joints_triplet`, which
      `Point3d` does not define, so its loaded prediction throws a TypeError (the
      wording below is one engine's). */
  const MissingAngleHelper: string := "TypeError: Point3d.get_angle_from_joints_triplet is not a function"

  /** What a loaded model predicts. */
  function LoadedPrediction(kind: FcnnKind, net: Network, m: Ops, pose: seq<Point3>): Result<FcnnOutput, string>
    requires IsPose(pose)
  {
    if kind == AnglesModel then Failure(MissingAngleHelper)
    else Success(ReadOutput(net.forward(Features(m, pose))))
  }

  class FcnnModel {
    const kind: FcnnKind
    var model: Option<Network>

    constructor (kind: FcnnKind)
      ensures this.kind == kind && model == None
    {
      this.kind := kind;
      model := None;
    }

    /** `load`: fetches the network only when none is loaded. The fetch is the
        parameter `fetched`. */
    method Load(fetched: Network)
      modifies this
      ensures model == if old(model).None? then Some(fetched) else old(model)
    {
      if model.None? {
        model := Some(fetched);
      }
    }

    /** `predict`. Without a network it starts a load, which is not awaited, and
        returns null (None); `loadStarted` reports that start. */
    method Predict(m: Ops, pose: seq<Point3>) returns (r: Result<Option<FcnnOutput>, string>, loadStarted: bool)
      requires IsPose(pose)
      ensures loadStarted <==> model.None?
      ensures model.None? ==> r == Success(None)
      ensures model.Some? ==>
        (r.Success? <==> kind != AnglesModel) &&
        (r.Success? ==> r.value == Some(LoadedPrediction(kind, model.value, m, pose).value))
    {
      if model.None? {
        return Success(None), true;
      }
      loadStarted := false;
      if kind == AnglesModel {
        return Failure(MissingAngleHelper), loadStarted;
      }
      var features := Features(m, pose);
      var output := model.value.forward(features);
      r := Success(Some(ReadOutput(output)));
    }
  }

  // ---------------------------------------------------------------------------
  // Properties

  /** The basis keeps its axes as built, and the point between the feet is its origin. */
  lemma BasisProperties(m: Ops, pose: seq<Point3>)
    requires IsPose(pose) && SqrtLaws(m)
    ensures CustomBasis(pose).origin == MidOf(pose, LeftFootIndex, RightFootIndex)
    ensures Add(CustomBasis(pose).origin, CustomBasis(pose).xDir) == MidOf(pose, LeftWrist, RightWrist)
    ensures Add(Add(CustomBasis(pose).origin, CustomBasis(pose).xDir), CustomBasis(pose).yDir) ==
      MidOf(pose, LeftShoulder, RightShoulder)
    ensures Dot(CustomBasis(pose).zDir, CustomBasis(pose).xDir) == 0.0
    ensures Dot(CustomBasis(pose).zDir, CustomBasis(pose).yDir) == 0.0
    ensures NonDegenerate(CustomBasis(pose)) ==>
      ToLocal(m, CustomBasis(pose), MidOf(pose, LeftFootIndex, RightFootIndex)) == Finite(Zero)
  {
    var f := CustomBasis(pose);
    var wristMid := MidOf(pose, LeftWrist, RightWrist);
    var shoulderMid := MidOf(pose, LeftShoulder, RightShoulder);
    var footMid := MidOf(pose, LeftFootIndex, RightFootIndex);
    NewFrameProperties(footMid, Subtract(wristMid, footMid), Subtract(shoulderMid, wristMid));
    SubtractProperties(wristMid, footMid);
    SubtractProperties(shoulderMid, wristMid);
    if NonDegenerate(f) {
      ToLocalOrigin(m, f);
    }
  }

  /** The features are the left and right joints of the arms and legs, in
      left-right pairs, each joint once. */
  lemma FeatureLayout()
    ensures |FeatureLandmarks| == 12
    ensures forall i :: 0 <= i < 6 ==> RightTwin(FeatureLandmarks[2 * i]) == Some(FeatureLandmarks[2 * i + 1])
    ensures forall i, j :: 0 <= i < j < |FeatureLandmarks| ==> FeatureLandmarks[i] != FeatureLandmarks[j]
    ensures forall i :: 0 <= i < |FeatureLandmarks| ==> 11 <= Index(FeatureLandmarks[i]) <= 28
  {
  }

  /** Each feature is its local point divided by the height, coordinate by
      coordinate: a coordinate is a number exactly when the local coordinate is one
      and the height is not zero, and multiplying it back by the height gives the
      local coordinate. A zero height leaves no finite coordinate. */
  lemma FeaturesAreScaledLocalPoints(m: Ops, pose: seq<Point3>, i: int)
    requires IsPose(pose) && 0 <= i < |FeatureLandmarks|
    ensures Height(m, pose) == 0.0 ==> Features(m, pose)[i] == LocalPoint(None, None, None)
    ensures ScaledBy(Features(m, pose)[i], ToLocal(m, CustomBasis(pose), Joint(pose, FeatureLandmarks[i])), Height(m, pose))
  {
    var p := ToLocal(m, CustomBasis(pose), Joint(pose, FeatureLandmarks[i]));
    assert Features(m, pose)[i] == DivideBy(p, Height(m, pose));
    DivideByInverse(p, Height(m, pose));
  }

  /** Dividing by a non-zero height is undone by multiplying by it. */
  lemma DivideByInverse(p: LocalPoint, h: real)
    ensures ScaledBy(DivideBy(p, h), p, h)
  {
  }

  /** `q` times `h` is `p` on every coordinate where `q` is a number, and `q` is a
      number exactly where `p` is one and `h` is not zero. */
  predicate ScaledBy(q: LocalPoint, p: LocalPoint, h: real) {
    && CoordinateScaledBy(q.x, p.x, h)
    && CoordinateScaledBy(q.y, p.y, h)
    && CoordinateScaledBy(q.z, p.z, h)
  }

  predicate CoordinateScaledBy(q: Option<real>, p: Option<real>, h: real) {
    && (q.Some? <==> p.Some? && h != 0.0)
    && (q.Some? ==> q.value * h == p.value)
  }

  /** `p` moved by `offset`, landmark by landmark. */
  function Translate(pose: seq<Point3>, offset: Point3): (r: seq<Point3>)
    ensures |r| == |pose| && forall i :: 0 <= i < |pose| ==> r[i] == Add(pose[i], offset)
  {
    seq(|pose|, i requires 0 <= i < |pose| => Add(pose[i], offset))
  }

  /** Moving the whole body does not change the network input: the basis moves with
      it and the height is a difference of points. */
  lemma FeaturesTranslationInvariant(m: Ops, pose: seq<Point3>, offset: Point3)
    requires IsPose(pose)
    ensures IsPose(Translate(pose, offset))
    ensures Features(m, Translate(pose, offset)) == Features(m, pose)
  {
    var moved := Translate(pose, offset);
    var f := CustomBasis(pose);
    BasisTranslated(m, pose, offset);
    forall i | 0 <= i < |FeatureLandmarks|
      ensures Features(m, moved)[i] == Features(m, pose)[i]
    {
      assert Joint(moved, FeatureLandmarks[i]) == Add(Joint(pose, FeatureLandmarks[i]), offset);
      ToLocalTranslationInvariant(m, f, Joint(pose, FeatureLandmarks[i]), offset);
    }
  }

  /** The basis of a moved body is the basis moved, and its height is the same. */
  lemma BasisTranslated(m: Ops, pose: seq<Point3>, offset: Point3)
    requires IsPose(pose)
    ensures IsPose(Translate(pose, offset))
    ensures CustomBasis(Translate(pose, offset)) ==
      CustomBasis(pose).(origin := Add(CustomBasis(pose).origin, offset))
    ensures Height(m, Translate(pose, offset)) == Height(m, pose)
  {
    MidOfTranslated(pose, offset, LeftWrist, RightWrist);
    MidOfTranslated(pose, offset, LeftShoulder, RightShoulder);
    MidOfTranslated(pose, offset, LeftFootIndex, RightFootIndex);
    MidOfTranslated(pose, offset, LeftAnkle, RightAnkle);
  }

  lemma MidOfTranslated(pose: seq<Point3>, offset: Point3, a: LandmarkKey, b: LandmarkKey)
    requires IsPose(pose)
    ensures IsPose(Translate(pose, offset))
    ensures MidOf(Translate(pose, offset), a, b) == Add(MidOf(pose, a, b), offset)
  {
    var moved := Translate(pose, offset);
    assert Joint(moved, a) == Add(Joint(pose, a), offset);
    assert Joint(moved, b) == Add(Joint(pose, b), offset);
    MidPointTranslated(Joint(pose, a), Joint(pose, b), offset);
  }

  lemma MidPointTranslated(p: Point3, q: Point3, offset: Point3)
    ensures MidPoint(Add(p, offset), Add(q, offset)) == Add(MidPoint(p, q), offset)
  {
  }

  /** Reading a two-entry output: "Correto" exactly when the second entry is strictly
      larger, with the larger entry as confidence; an empty output names no class. */
  lemma ReadOutputSpec(output: seq<real>)
    ensures |output| == 2 ==>
      && ReadOutput(output).className == Some(if output[1] > output[0] then "Correto" else "Incorreto")
      && ReadOutput(output).maxProb == Some(if output[1] > output[0] then output[1] else output[0])
    ensures output == [] ==> ReadOutput(output) == FcnnOutput(None, None)
    ensures ReadOutput(output).className.Some? <==> 0 <= FirstMaxIndex(output) < 2
  {
    if |output| == 2 {
      var i := FirstMaxIndex(output);
      assert IsFirstMax(output, i);
    }
  }
}
