/** Point algebra in three dimensions: the `Point3d` value type, whose every
    operation builds a new point, and the joint-triplet angle the engines use as
    a feature. */
module Point3D {
  import opened Wrappers
  import opened MathOps
  import opened Types

  datatype Point3 = Point3(x: real, y: real, z: real)

  const Zero: Point3 := Point3(0.0, 0.0, 0.0)

  function Subtract(a: Point3, b: Point3): Point3 {
    Point3(a.x - b.x, a.y - b.y, a.z - b.z)
  }

  /** Componentwise sum; not an operation of the source, used to state properties. */
  function Add(a: Point3, b: Point3): Point3 {
    Point3(a.x + b.x, a.y + b.y, a.z + b.z)
  }

  /** Componentwise negation; used to state properties. */
  function Negate(a: Point3): Point3 {
    Point3(-a.x, -a.y, -a.z)
  }

  /** Every coordinate multiplied by `c`; used to state properties. */
  function Scale(a: Point3, c: real): Point3 {
    Point3(c * a.x, c * a.y, c * a.z)
  }

  function MidPoint(a: Point3, b: Point3): Point3 {
    Point3((a.x + b.x) / 2.0, (a.y + b.y) / 2.0, (a.z + b.z) / 2.0)
  }

  /** `x ** 2 + y ** 2 + z ** 2`, the quantity under the root of `norm`. */
  function SquaredNorm(a: Point3): real {
    a.x * a.x + a.y * a.y + a.z * a.z
  }

  function Norm(m: Ops, a: Point3): real {
    m.sqrt(SquaredNorm(a))
  }

  /** Each coordinate divided by the norm; a zero norm makes every coordinate NaN (None). */
  function Normalize(m: Ops, a: Point3): Option<Point3> {
    var n := Norm(m, a);
    if n == 0.0 then None else Some(Point3(a.x / n, a.y / n, a.z / n))
  }

  function Dot(a: Point3, b: Point3): real {
    a.x * b.x + a.y * b.y + a.z * b.z
  }

  function Cross(a: Point3, b: Point3): Point3 {
    Point3(a.y * b.z - a.z * b.y, a.z * b.x - a.x * b.z, a.x * b.y - a.y * b.x)
  }

  /** The product of the two norms, the divisor of the cosine. */
  function NormProduct(m: Ops, v1: Point3, v2: Point3): real {
    Norm(m, v1) * Norm(m, v2)
  }

  /** The cosine `dot / (|v1| |v2|)`, defined where the norms do not vanish. */
  function Cosine(m: Ops, v1: Point3, v2: Point3): real
    requires NormProduct(m, v1, v2) != 0.0
  {
    Dot(v1, v2) / NormProduct(m, v1, v2)
  }

  /** `get_angle`: `acos` applied, without clamping, to the cosine, converted to
      degrees on request. A zero norm divides by zero, and `acos` of the resulting
      NaN or infinity is NaN (None). */
  function GetAngle(m: Ops, v1: Point3, v2: Point3, degrees: bool): Option<real> {
    if NormProduct(m, v1, v2) == 0.0 then None
    else
      var angleRad := m.acos(Cosine(m, v1, v2));
      if degrees then Some(angleRad * (180.0 / PI)) else Some(angleRad)
  }

  /** Three landmarks naming an angle feature. */
  datatype Triplet = Triplet(first: LandmarkKey, middle: LandmarkKey, last: LandmarkKey)

  /** A pose holds at least one point for every landmark. */
  predicate IsPose(pose: seq<Point3>) {
    |pose| >= LandmarkCount
  }

  /** `new Point3d(landmarks[landmarksDict[k]])`. */
  function Joint(pose: seq<Point3>, k: LandmarkKey): Point3
    requires IsPose(pose)
  {
    pose[Index(k)]
  }

  /** `getAngleFromPointsTriplet`: the angle between the consecutive edges
      `middle - first` and `last - middle`, optionally divided by 180 (degrees)
      or by pi (radians). */
  function GetAngleFromPointsTriplet(m: Ops, pose: seq<Point3>, t: Triplet, degrees: bool, normalize: bool): Option<real>
    requires IsPose(pose)
  {
    var a := Joint(pose, t.first);
    var b := Joint(pose, t.middle);
    var c := Joint(pose, t.last);
    var angle := GetAngle(m, Subtract(b, a), Subtract(c, b), degrees);
    match angle
    case None => None
    case Some(v) =>
      if !normalize then Some(v)
      else if degrees then Some(v / 180.0)
      else Some(v / PI)
  }

  // ---------------------------------------------------------------------------
  // Properties

  /** `subtract` is the componentwise difference: it undoes `Add` and maps `a - a` to zero. */
  lemma SubtractProperties(a: Point3, b: Point3)
    ensures Subtract(a, a) == Zero
    ensures Add(Subtract(a, b), b) == a
    ensures Subtract(Add(a, b), b) == a
  {
  }

  /** The midpoint is symmetric and lies halfway: it is as far from `a` as `b` is from it. */
  lemma MidPointProperties(a: Point3, b: Point3)
    ensures MidPoint(a, b) == MidPoint(b, a)
    ensures Subtract(MidPoint(a, b), a) == Subtract(b, MidPoint(a, b))
    ensures MidPoint(a, a) == a
  {
  }

  /** The dot product is commutative, and a point dotted with itself is its squared norm. */
  lemma DotProperties(a: Point3, b: Point3)
    ensures Dot(a, b) == Dot(b, a)
    ensures Dot(a, a) == SquaredNorm(a)
  {
  }

  /** The cross product is anti-commutative and orthogonal to both of its factors. */
  lemma CrossProperties(a: Point3, b: Point3)
    ensures Cross(a, b) == Negate(Cross(b, a))
    ensures Dot(a, Cross(a, b)) == 0.0
    ensures Dot(b, Cross(a, b)) == 0.0
    ensures Cross(a, a) == Zero
  {
  }

  /** Under the square-root laws, the norm is zero exactly when the squared norm is. */
  lemma NormZeroIff(m: Ops, a: Point3)
    requires SqrtLaws(m)
    ensures Norm(m, a) == 0.0 <==> SquaredNorm(a) == 0.0
    ensures a == Zero ==> Norm(m, a) == 0.0
  {
  }

  /** `normalize` is NaN exactly for a point of squared norm 0; otherwise scaling the
      result back by the norm gives the original point. */
  lemma NormalizeInverse(m: Ops, a: Point3)
    requires SqrtLaws(m)
    ensures Normalize(m, a).None? <==> SquaredNorm(a) == 0.0
    ensures Normalize(m, a).Some? ==> Scale(Normalize(m, a).value, Norm(m, a)) == a
  {
    NormZeroIff(m, a);
  }

  /** `get_angle` does not depend on the order of its two vectors. */
  lemma GetAngleSymmetric(m: Ops, v1: Point3, v2: Point3, degrees: bool)
    ensures GetAngle(m, v1, v2, degrees) == GetAngle(m, v2, v1, degrees)
  {
    DotProperties(v1, v2);
  }

  /** The angle is NaN exactly when one of the vectors has squared norm 0, in
      particular when one of them is the zero vector. */
  lemma GetAngleNoneIff(m: Ops, v1: Point3, v2: Point3, degrees: bool)
    requires SqrtLaws(m)
    ensures GetAngle(m, v1, v2, degrees).None? <==> SquaredNorm(v1) == 0.0 || SquaredNorm(v2) == 0.0
    ensures v1 == Zero || v2 == Zero ==> GetAngle(m, v1, v2, degrees).None?
  {
    NormZeroIff(m, v1);
    NormZeroIff(m, v2);
    ProductZero(Norm(m, v1), Norm(m, v2));
  }

  /** The triplet angle is the angle between the consecutive edges `b - a` and
      `c - b`, not the angle enclosed at the middle joint. */
  lemma TripletUsesConsecutiveEdges(m: Ops, pose: seq<Point3>, t: Triplet, degrees: bool)
    requires IsPose(pose)
    ensures
      var a, b, c := Joint(pose, t.first), Joint(pose, t.middle), Joint(pose, t.last);
      GetAngleFromPointsTriplet(m, pose, t, degrees, false) == GetAngle(m, Subtract(b, a), Subtract(c, b), degrees)
  {
  }

  /** For three collinear joints `a`, `b`, `c` with the middle one between the others
      (a straight limb), the angle of the consecutive edges is `acos(1)`, while the
      angle enclosed at `b` would be `acos(-1)`. */
  lemma StraightLimbExample(m: Ops)
    requires SqrtLaws(m)
    ensures
      var a, b, c := Point3(0.0, 0.0, 0.0), Point3(1.0, 0.0, 0.0), Point3(2.0, 0.0, 0.0);
      && GetAngle(m, Subtract(b, a), Subtract(c, b), false) == Some(m.acos(1.0))
      && GetAngle(m, Subtract(a, b), Subtract(c, b), false) == Some(m.acos(-1.0))
  {
    var e, f := Point3(1.0, 0.0, 0.0), Point3(-1.0, 0.0, 0.0);
    assert Cosine(m, e, e) == 1.0;
    assert GetAngle(m, e, e, false) == Some(m.acos(1.0));
    assert SquaredNorm(f) == 1.0 && Norm(m, f) == 1.0;
    assert Cosine(m, f, e) == -1.0;
    assert GetAngle(m, f, e, false) == Some(m.acos(-1.0));
  }

  /** With normalisation, the degree result divided by 180 and the radian result
      divided by pi are the same number: the raw angle over pi. */
  lemma NormalizedTripletIsRadiansOverPi(m: Ops, pose: seq<Point3>, t: Triplet)
    requires IsPose(pose)
    ensures
      var a, b, c := Joint(pose, t.first), Joint(pose, t.middle), Joint(pose, t.last);
      var raw := GetAngle(m, Subtract(b, a), Subtract(c, b), false);
      && GetAngleFromPointsTriplet(m, pose, t, false, true) == (if raw.None? then None else Some(raw.value / PI))
      && GetAngleFromPointsTriplet(m, pose, t, true, true) == GetAngleFromPointsTriplet(m, pose, t, false, true)
  {
    var a, b, c := Joint(pose, t.first), Joint(pose, t.middle), Joint(pose, t.last);
    var raw := GetAngle(m, Subtract(b, a), Subtract(c, b), false);
    if raw.Some? {
      var r := raw.value;
      assert (r * (180.0 / PI)) / 180.0 == r / PI;
    }
  }
}
