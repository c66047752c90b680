/** `CoordinateSystem3D`: an origin and three axes, the third the cross product of
    the first two, and the projection of a point onto those axes. */
module CoordinateSystem {
  import opened Wrappers
  import opened MathOps
  import opened Point3D

  /** The fields are set once, by the constructor, so the system is a value. */
  datatype Frame = Frame(origin: Point3, xDir: Point3, yDir: Point3, zDir: Point3)

  /** The constructor: the axes are kept as given (neither normalised nor made
      orthogonal), and `zDir` is `xDir x yDir`. */
  function NewFrame(origin: Point3, xDir: Point3, yDir: Point3): Frame {
    Frame(origin, xDir, yDir, Cross(xDir, yDir))
  }

  /** `canonicalSystem`: origin 0 and the unit axes. */
  const Canonical: Frame := Frame(Zero, Point3(1.0, 0.0, 0.0), Point3(0.0, 1.0, 0.0), Point3(0.0, 0.0, 1.0))

  /** The constructed `zDir` is orthogonal to both given axes, which are kept unchanged. */
  lemma NewFrameProperties(origin: Point3, xDir: Point3, yDir: Point3)
    ensures
      var f := NewFrame(origin, xDir, yDir);
      && f.origin == origin && f.xDir == xDir && f.yDir == yDir
      && Dot(f.zDir, xDir) == 0.0 && Dot(f.zDir, yDir) == 0.0
      && f.zDir == Negate(Cross(yDir, xDir))
  {
    CrossProperties(xDir, yDir);
    DotProperties(Cross(xDir, yDir), xDir);
    DotProperties(Cross(xDir, yDir), yDir);
  }

  /** `canonicalSystem` is what the constructor builds from the x and y unit axes. */
  lemma CanonicalIsConstructed()
    ensures Canonical == NewFrame(Zero, Point3(1.0, 0.0, 0.0), Point3(0.0, 1.0, 0.0))
  {
  }

  /** One local coordinate: `relative . normalize(axis)` divided by `norm(axis)`.
      A zero-length axis makes `normalize` NaN, so the coordinate is NaN (None). */
  function AxisCoordinate(m: Ops, relative: Point3, axis: Point3): Option<real> {
    match Normalize(m, axis)
    case None => None
    case Some(unit) => Some(Dot(relative, unit) / Norm(m, axis))
  }

  /** A point as `toLocal` returns it: each coordinate is a number or NaN (None) on
      its own, so a zero-length axis spoils only its own coordinate. */
  datatype LocalPoint = LocalPoint(x: Option<real>, y: Option<real>, z: Option<real>)

  /** The local point with three finite coordinates `p`. */
  function Finite(p: Point3): LocalPoint {
    LocalPoint(Some(p.x), Some(p.y), Some(p.z))
  }

  predicate AllFinite(p: LocalPoint) {
    p.x.Some? && p.y.Some? && p.z.Some?
  }

  /** `toLocal`: the point relative to the origin, projected on each axis. */
  function ToLocal(m: Ops, f: Frame, point: Point3): LocalPoint {
    var relative := Subtract(point, f.origin);
    LocalPoint(
      AxisCoordinate(m, relative, f.xDir),
      AxisCoordinate(m, relative, f.yDir),
      AxisCoordinate(m, relative, f.zDir))
  }

  /** Every axis of the frame has a nonzero length. */
  predicate NonDegenerate(f: Frame) {
    SquaredNorm(f.xDir) != 0.0 && SquaredNorm(f.yDir) != 0.0 && SquaredNorm(f.zDir) != 0.0
  }

  // ---------------------------------------------------------------------------
  // Properties

  /** A coordinate is defined exactly when its axis has nonzero length, and is then
      the dot product with the axis divided by the axis' squared length. */
  lemma AxisCoordinateFormula(m: Ops, relative: Point3, axis: Point3)
    requires SqrtLaws(m)
    ensures AxisCoordinate(m, relative, axis).None? <==> SquaredNorm(axis) == 0.0
    ensures SquaredNorm(axis) != 0.0 ==>
      AxisCoordinate(m, relative, axis) == Some(Dot(relative, axis) / SquaredNorm(axis))
  {
    NormalizeInverse(m, axis);
    if SquaredNorm(axis) != 0.0 {
      var n := Norm(m, axis);
      var u := Normalize(m, axis).value;
      assert u == Point3(axis.x / n, axis.y / n, axis.z / n);
      DotWithScaled(relative, axis, n);
      NormSquared(m, axis);
      DivideTwice(Dot(relative, axis), n, SquaredNorm(axis));
    }
  }

  lemma DotWithScaled(relative: Point3, axis: Point3, n: real)
    requires n != 0.0
    ensures Dot(relative, Point3(axis.x / n, axis.y / n, axis.z / n)) == Dot(relative, axis) / n
  {
  }

  /** The norm squares back to the squared norm. */
  lemma NormSquared(m: Ops, a: Point3)
    requires SqrtLaws(m)
    ensures Norm(m, a) * Norm(m, a) == SquaredNorm(a)
  {
    SquaredNormNonNegative(a);
    assert m.sqrt(SquaredNorm(a)) * m.sqrt(SquaredNorm(a)) == SquaredNorm(a);
  }

  lemma SquaredNormNonNegative(a: Point3)
    ensures SquaredNorm(a) >= 0.0
  {
    assert a.x * a.x >= 0.0 && a.y * a.y >= 0.0 && a.z * a.z >= 0.0;
  }

  /** Dividing twice by `n` is dividing once by `w == n * n`. */
  lemma DivideTwice(d: real, n: real, w: real)
    requires n != 0.0 && w == n * n && w != 0.0
    ensures d / n / n == d / w
  {
    var q := d / n;
    var r := q / n;
    assert q * n == d;
    assert r * n == q;
    assert r * w == d;
  }

  /** Along its own axis the axis vector has coordinate 1. */
  lemma AxisOwnCoordinate(m: Ops, axis: Point3)
    requires SqrtLaws(m) && SquaredNorm(axis) != 0.0
    ensures AxisCoordinate(m, axis, axis) == Some(1.0)
  {
    AxisCoordinateFormula(m, axis, axis);
    DotProperties(axis, axis);
    var q := SquaredNorm(axis);
    assert q / q == 1.0;
  }

  /** A vector orthogonal to a non-zero axis has coordinate 0 along it. */
  lemma OrthogonalCoordinate(m: Ops, relative: Point3, axis: Point3)
    requires SqrtLaws(m) && SquaredNorm(axis) != 0.0 && Dot(relative, axis) == 0.0
    ensures AxisCoordinate(m, relative, axis) == Some(0.0)
  {
    AxisCoordinateFormula(m, relative, axis);
  }

  /** Each coordinate is defined exactly when its own axis has nonzero length, so
      the point is finite exactly for frames whose three axes have nonzero length. */
  lemma ToLocalDefinedIff(m: Ops, f: Frame, point: Point3)
    requires SqrtLaws(m)
    ensures ToLocal(m, f, point).x.None? <==> SquaredNorm(f.xDir) == 0.0
    ensures ToLocal(m, f, point).y.None? <==> SquaredNorm(f.yDir) == 0.0
    ensures ToLocal(m, f, point).z.None? <==> SquaredNorm(f.zDir) == 0.0
    ensures AllFinite(ToLocal(m, f, point)) <==> NonDegenerate(f)
  {
    var relative := Subtract(point, f.origin);
    AxisCoordinateFormula(m, relative, f.xDir);
    AxisCoordinateFormula(m, relative, f.yDir);
    AxisCoordinateFormula(m, relative, f.zDir);
  }

  /** The cross product of an axis with a multiple of itself is zero. */
  lemma CrossParallel(a: Point3, c: real)
    ensures Cross(a, Scale(a, c)) == Zero
  {
  }

  /** With two non-zero but parallel given axes (`xDir x yDir` is zero, as for
      `yDir == Scale(xDir, c)`), `zDir` is zero: only the z coordinate is NaN, and
      the x and y coordinates stay numbers. */
  lemma ParallelAxesLoseOnlyZ(m: Ops, origin: Point3, xDir: Point3, yDir: Point3, point: Point3)
    requires SqrtLaws(m) && SquaredNorm(xDir) != 0.0 && SquaredNorm(yDir) != 0.0
    requires Cross(xDir, yDir) == Zero
    ensures
      var l := ToLocal(m, NewFrame(origin, xDir, yDir), point);
      l.x.Some? && l.y.Some? && l.z.None?
  {
    ToLocalDefinedIff(m, NewFrame(origin, xDir, yDir), point);
  }

  /** The origin of a non-degenerate frame has local coordinates 0. */
  lemma ToLocalOrigin(m: Ops, f: Frame)
    requires SqrtLaws(m) && NonDegenerate(f)
    ensures ToLocal(m, f, f.origin) == Finite(Zero)
  {
    SubtractProperties(f.origin, f.origin);
    OrthogonalCoordinate(m, Zero, f.xDir);
    OrthogonalCoordinate(m, Zero, f.yDir);
    OrthogonalCoordinate(m, Zero, f.zDir);
  }

  /** For a constructed non-degenerate frame, the end of `xDir` has x-coordinate 1
      and z-coordinate 0; its y-coordinate is `(xDir . yDir) / |yDir|^2`, which is
      0 only for orthogonal axes. */
  lemma XAxisMapsToUnit(m: Ops, origin: Point3, xDir: Point3, yDir: Point3)
    requires SqrtLaws(m) && NonDegenerate(NewFrame(origin, xDir, yDir))
    ensures
      var l := ToLocal(m, NewFrame(origin, xDir, yDir), Add(origin, xDir));
      && l.x == Some(1.0)
      && l.y == Some(Dot(xDir, yDir) / SquaredNorm(yDir))
      && l.z == Some(0.0)
  {
    var f := NewFrame(origin, xDir, yDir);
    SubtractProperties(xDir, origin);
    DotProperties(xDir, Cross(xDir, yDir));
    CrossProperties(xDir, yDir);
    assert Add(origin, xDir) == Add(xDir, origin);
    AxisOwnCoordinate(m, xDir);
    AxisCoordinateFormula(m, xDir, yDir);
    OrthogonalCoordinate(m, xDir, f.zDir);
  }

  /** Moving the origin and the point by the same offset changes nothing. */
  lemma ToLocalTranslationInvariant(m: Ops, f: Frame, point: Point3, offset: Point3)
    ensures ToLocal(m, f.(origin := Add(f.origin, offset)), Add(point, offset)) == ToLocal(m, f, point)
  {
    assert Subtract(Add(point, offset), Add(f.origin, offset)) == Subtract(point, f.origin);
  }

  /** Along an axis of length one, the coordinate is the plain dot product. */
  lemma UnitAxisCoordinate(m: Ops, relative: Point3, axis: Point3)
    requires m.sqrt(1.0) == 1.0 && SquaredNorm(axis) == 1.0
    ensures AxisCoordinate(m, relative, axis) == Some(Dot(relative, axis))
  {
    assert Norm(m, axis) == 1.0;
    assert Normalize(m, axis) == Some(axis);
  }

  /** With axes of length one, the local coordinates are the plain dot products
      of the relative point with the axes. */
  lemma UnitFrameCoordinates(m: Ops, f: Frame, point: Point3)
    requires m.sqrt(1.0) == 1.0
    requires SquaredNorm(f.xDir) == 1.0 && SquaredNorm(f.yDir) == 1.0 && SquaredNorm(f.zDir) == 1.0
    ensures
      var relative := Subtract(point, f.origin);
      ToLocal(m, f, point) == Finite(Point3(Dot(relative, f.xDir), Dot(relative, f.yDir), Dot(relative, f.zDir)))
  {
    var relative := Subtract(point, f.origin);
    UnitAxisCoordinate(m, relative, f.xDir);
    UnitAxisCoordinate(m, relative, f.yDir);
    UnitAxisCoordinate(m, relative, f.zDir);
  }

  /** The canonical axes have length one, and the dot products of a point with them
      are its own coordinates. */
  lemma CanonicalAxes(point: Point3)
    ensures SquaredNorm(Canonical.xDir) == 1.0 && SquaredNorm(Canonical.yDir) == 1.0
    ensures SquaredNorm(Canonical.zDir) == 1.0
    ensures
      var relative := Subtract(point, Canonical.origin);
      Point3(Dot(relative, Canonical.xDir), Dot(relative, Canonical.yDir), Dot(relative, Canonical.zDir)) == point
  {
    var ex, ey, ez := Point3(1.0, 0.0, 0.0), Point3(0.0, 1.0, 0.0), Point3(0.0, 0.0, 1.0);
    assert Canonical.origin == Zero && Canonical.xDir == ex && Canonical.yDir == ey && Canonical.zDir == ez;
    assert Subtract(point, Zero) == point;
    assert Dot(point, ex) == point.x && Dot(point, ey) == point.y && Dot(point, ez) == point.z;
  }

  /** In the canonical system every point keeps its coordinates. */
  lemma CanonicalIsIdentity(m: Ops, point: Point3)
    requires m.sqrt(1.0) == 1.0
    ensures ToLocal(m, Canonical, point) == Finite(point)
  {
    CanonicalAxes(point);
    UnitFrameCoordinates(m, Canonical, point);
  }

  /** The axes are not made orthogonal, so the projection is not a change of basis:
      with unit axes, the point one `yDir` away from the origin gets the x-coordinate
      `yDir . xDir` and the y-coordinate 1; it gets x-coordinate 0 only when the two
      axes are orthogonal. */
  lemma SkewedAxesProjection(m: Ops, f: Frame)
    requires m.sqrt(1.0) == 1.0
    requires SquaredNorm(f.xDir) == 1.0 && SquaredNorm(f.yDir) == 1.0 && SquaredNorm(f.zDir) == 1.0
    ensures ToLocal(m, f, Add(f.origin, f.yDir)) == Finite(Point3(Dot(f.yDir, f.xDir), 1.0, Dot(f.yDir, f.zDir)))
  {
    UnitFrameCoordinates(m, f, Add(f.origin, f.yDir));
    assert Subtract(Add(f.origin, f.yDir), f.origin) == f.yDir;
    DotProperties(f.yDir, f.yDir);
  }
}
