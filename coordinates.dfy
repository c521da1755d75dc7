/** The Log map at the identity and the three coordinate charts (retract and
    localCoordinates) of gtsam's Rot3 in its 3x3-matrix representation
    (gtsam/geometry/Rot3M.cpp). */
module Rot3Coordinates {
  import opened Algebra
  import opened Rot3M
  import opened Rot3Charts
  import opened Rot3CayleyIdentities

  // ---------------------------------------------------------------------------------
  // Logmap

  /** The trace r1.x + r2.y + r3.z. */
  function Trace(R: Rot3): real {
    R.r1.x + R.r2.y + R.r3.z
  }

  /** The tolerance of the test trace = -1 and of the tests on the diagonal entries. */
  const HalfTurnTolerance: real := 0.0000000001

  /** The threshold on trace - 3 below which the trace is far enough from 3 for acos. */
  const TaylorThreshold: real := -0.0000001

  /** The scalar Logmap multiplies the vector (r2.z - r3.y, r3.x - r1.z, r1.y - r2.x) by, for
      the trace tr: theta / (2 sin(theta)) with theta = acos((tr - 1) / 2), or near tr = 3 the
      value 1/2 - (tr - 3)^2 / 12 as the code computes it (the first-order Taylor
      expansion would be 1/2 - (tr - 3) / 12). */
  function LogmapMagnitude(env: Env, tr: real): real
    requires tr - 3.0 < TaylorThreshold ==> env.sin(env.acos((tr - 1.0) / 2.0)) != 0.0
  {
    var tr_3 := tr - 3.0;
    if tr_3 < TaylorThreshold then
      var theta := env.acos((tr - 1.0) / 2.0);
      theta / (2.0 * env.sin(theta))
    else
      0.5 - tr_3 * tr_3 / 12.0
  }

  /** Logmap divides by the square root in the branch trace = -1 it takes and by
      2 sin(theta) in the generic branch; the model asks that the divisor is not zero. */
  predicate LogmapDefined(env: Env, R: Rot3) {
    if Abs(Trace(R) + 1.0) < HalfTurnTolerance then
      if Abs(R.r3.z + 1.0) > HalfTurnTolerance then env.sqrt(2.0 + 2.0 * R.r3.z) != 0.0
      else if Abs(R.r2.y + 1.0) > HalfTurnTolerance then env.sqrt(2.0 + 2.0 * R.r2.y) != 0.0
      else env.sqrt(2.0 + 2.0 * R.r1.x) != 0.0
    else
      Trace(R) - 3.0 < TaylorThreshold ==> env.sin(env.acos((Trace(R) - 1.0) / 2.0)) != 0.0
  }

  /** The vector (r2.z - r3.y, r3.x - r1.z, r1.y - r2.x): twice the axis times sin(theta). */
  function AntisymmetricPart(R: Rot3): Point3 {
    Point3(R.r2.z - R.r3.y, R.r3.x - R.r1.z, R.r1.y - R.r2.x)
  }

  /** Logmap(R): the canonical coordinates of R. At trace = -1 (a half turn) the axis is
      read off the first of r3, r2, r1 whose diagonal entry is not -1, with 1 added at
      that entry, scaled by pi / sqrt(2 + 2 diag); otherwise the antisymmetric part of R
      scaled by LogmapMagnitude. */
  function Logmap(env: Env, R: Rot3): (omega: Point3)
    requires LogmapDefined(env, R)
    ensures Abs(Trace(R) + 1.0) >= HalfTurnTolerance ==>
              omega == Scale(LogmapMagnitude(env, Trace(R)), AntisymmetricPart(R))
  {
    var tr := Trace(R);
    if Abs(tr + 1.0) < HalfTurnTolerance then
      if Abs(R.r3.z + 1.0) > HalfTurnTolerance then
        Scale(env.pi / env.sqrt(2.0 + 2.0 * R.r3.z), Point3(R.r3.x, R.r3.y, 1.0 + R.r3.z))
      else if Abs(R.r2.y + 1.0) > HalfTurnTolerance then
        Scale(env.pi / env.sqrt(2.0 + 2.0 * R.r2.y), Point3(R.r2.x, 1.0 + R.r2.y, R.r2.z))
      else
        Scale(env.pi / env.sqrt(2.0 + 2.0 * R.r1.x), Point3(1.0 + R.r1.x, R.r1.y, R.r1.z))
    else
      Scale(LogmapMagnitude(env, tr), AntisymmetricPart(R))
  }

  /** Logmap of the identity is the zero vector (the Taylor branch, magnitude 1/2). */
  lemma LogmapIdentity(env: Env)
    ensures LogmapDefined(env, Identity())
    ensures Logmap(env, Identity()) == Zero()
  {}

  /** Away from a half turn, the Log map of the inverse is the negated Log map. */
  lemma LogmapInverse(env: Env, R: Rot3)
    requires Abs(Trace(R) + 1.0) >= HalfTurnTolerance && LogmapDefined(env, R)
    ensures LogmapDefined(env, Inverse(R, false).value)
    ensures Logmap(env, Inverse(R, false).value) == Negate(Logmap(env, R))
  {
    var Ri := Inverse(R, false).value;
    assert Trace(Ri) == Trace(R);
    assert AntisymmetricPart(Ri) == Negate(AntisymmetricPart(R));
    ScaleNegate(LogmapMagnitude(env, Trace(R)), AntisymmetricPart(R));
  }

  /** The trace of Rodrigues' formula with a unit axis is 1 + 2c. */
  lemma RodriguezTrace(w: Point3, c: real)
    requires NormSq(w) == 1.0
    ensures (c + (1.0 - c) * (w.x * w.x)) + (c + (1.0 - c) * (w.y * w.y)) + (c + (1.0 - c) * (w.z * w.z)) == 1.0 + 2.0 * c
  {
    assert (c + (1.0 - c) * (w.x * w.x)) + (c + (1.0 - c) * (w.y * w.y)) + (c + (1.0 - c) * (w.z * w.z)) - (1.0 + 2.0 * c)
        == (1.0 - c) * (NormSq(w) - 1.0);
  }

  /** The generic magnitude at the trace 1 + 2c, when sin(acos(c)) is s. */
  lemma MagnitudeAtCosine(env: Env, c: real, s: real)
    requires 2.0 * c - 2.0 < TaylorThreshold && env.sin(env.acos(c)) == s && s != 0.0
    ensures LogmapMagnitude(env, 1.0 + 2.0 * c) == env.acos(c) / (2.0 * s)
  {
    assert ((1.0 + 2.0 * c) - 1.0) / 2.0 == c;
  }

  /** theta / (2 s) times 2 s w is theta w. */
  lemma HalfAngleScale(env: Env, c: real, s: real, w: Point3)
    requires s != 0.0
    ensures Scale(env.acos(c) / (2.0 * s), Point3(2.0 * (w.x * s), 2.0 * (w.y * s), 2.0 * (w.z * s)))
         == Scale(env.acos(c), w)
  {}

  /** Logmap inverts rodriguez in the generic branch: for a unit axis w and an angle
      theta = acos(c) with sin(theta) = s (not 0, not a half turn, not near 0), the Log map of
      the rotation by theta about w is theta w. */
  lemma LogmapRodriguez(env: Env, w: Point3, c: real, s: real, debug: bool)
    requires NormSq(w) == 1.0
    requires Abs(2.0 + 2.0 * c) >= HalfTurnTolerance && 2.0 * c - 2.0 < TaylorThreshold
    requires env.sin(env.acos(c)) == s && s != 0.0
    ensures Rodriguez(w, c, s, debug).Success?
    ensures LogmapDefined(env, Rodriguez(w, c, s, debug).value)
    ensures Logmap(env, Rodriguez(w, c, s, debug).value) == Scale(env.acos(c), w)
  {
    var R := Rodriguez(w, c, s, debug).value;
    RodriguezCheckOnlyFails(w, c, s, debug);
    RodriguezReleaseEntries(w, c, s);
    RodriguezTrace(w, c);
    assert Trace(R) == 1.0 + 2.0 * c;
    assert (Trace(R) - 1.0) / 2.0 == c;
    MagnitudeAtCosine(env, c, s);
    assert AntisymmetricPart(R) == Point3(2.0 * (w.x * s), 2.0 * (w.y * s), 2.0 * (w.z * s));
    HalfAngleScale(env, c, s, w);
  }

  /** env.sqrt is the non-negative square root on the non-negative reals. */
  ghost predicate SqrtIsRoot(env: Env) {
    forall x: real :: 0.0 <= x ==> 0.0 <= env.sqrt(x) && env.sqrt(x) * env.sqrt(x) == x
  }

  /** Rodrigues' formula for a half turn (c = -1, s = 0) is -I + 2 w w^T. */
  lemma HalfTurnEntries(w: Point3, c: real, s: real)
    requires c == -1.0 && s == 0.0
    ensures Rodriguez(w, c, s, false).value
        == Rot3(Point3(-1.0 + 2.0 * (w.x * w.x), 2.0 * (w.x * w.y), 2.0 * (w.x * w.z)),
                Point3(2.0 * (w.x * w.y), -1.0 + 2.0 * (w.y * w.y), 2.0 * (w.y * w.z)),
                Point3(2.0 * (w.x * w.z), 2.0 * (w.y * w.z), -1.0 + 2.0 * (w.z * w.z)))
  {
    RodriguezReleaseEntries(w, c, s);
  }

  /** A half turn about a unit axis has trace -1. */
  lemma HalfTurnTrace(w: Point3)
    requires NormSq(w) == 1.0
    ensures (-1.0 + 2.0 * (w.x * w.x)) + (-1.0 + 2.0 * (w.y * w.y)) + (-1.0 + 2.0 * (w.z * w.z)) == -1.0
  {
    assert (-1.0 + 2.0 * (w.x * w.x)) + (-1.0 + 2.0 * (w.y * w.y)) + (-1.0 + 2.0 * (w.z * w.z)) + 1.0
        == 2.0 * (NormSq(w) - 1.0);
  }

  /** With r = |2 w.z|, (pi / r) (2 w.z) w is pi w or -pi w; likewise for w.y and w.x. */
  lemma HalfTurnScaleZ(pi: real, r: real, w: Point3)
    requires r * r == 4.0 * (w.z * w.z) && r != 0.0
    ensures Scale(pi / r, Point3(2.0 * (w.x * w.z), 2.0 * (w.y * w.z), 2.0 * (w.z * w.z))) == Scale(pi, w)
         || Scale(pi / r, Point3(2.0 * (w.x * w.z), 2.0 * (w.y * w.z), 2.0 * (w.z * w.z))) == Scale(-pi, w)
  {
    assert (r - 2.0 * w.z) * (r + 2.0 * w.z) == 0.0;
    if r == 2.0 * w.z {
      assert Scale(pi / r, Point3(2.0 * (w.x * w.z), 2.0 * (w.y * w.z), 2.0 * (w.z * w.z))) == Scale(pi, w);
    } else {
      ZeroProduct(r - 2.0 * w.z, r + 2.0 * w.z);
      assert Scale(pi / r, Point3(2.0 * (w.x * w.z), 2.0 * (w.y * w.z), 2.0 * (w.z * w.z))) == Scale(-pi, w);
    }
  }

  // Logmap of a half turn, by the branch it takes: r3.z, r2.y, r1.x not -1.

  lemma LogmapHalfTurnZ(env: Env, w: Point3, c: real, s: real)
    requires NormSq(w) == 1.0 && c == -1.0 && s == 0.0 && SqrtIsRoot(env)
    requires Abs(2.0 * (w.z * w.z)) > HalfTurnTolerance
    ensures LogmapDefined(env, Rodriguez(w, c, s, false).value)
    ensures Logmap(env, Rodriguez(w, c, s, false).value) == Scale(env.pi, w)
         || Logmap(env, Rodriguez(w, c, s, false).value) == Scale(-env.pi, w)
  {
    var R := Rodriguez(w, c, s, false).value;
    HalfTurnEntries(w, c, s);
    HalfTurnTrace(w);
    assert Trace(R) == -1.0;
    assert R.r3.z + 1.0 == 2.0 * (w.z * w.z);
    SquareNonnegative(w.z);
    var r := env.sqrt(2.0 + 2.0 * R.r3.z);
    assert 2.0 + 2.0 * R.r3.z == 4.0 * (w.z * w.z);
    assert r * r == 4.0 * (w.z * w.z);
    assert r != 0.0;
    HalfTurnScaleZ(env.pi, r, w);
  }

  lemma HalfTurnScaleY(pi: real, r: real, w: Point3)
    requires r * r == 4.0 * (w.y * w.y) && r != 0.0
    ensures Scale(pi / r, Point3(2.0 * (w.x * w.y), 2.0 * (w.y * w.y), 2.0 * (w.y * w.z))) == Scale(pi, w)
         || Scale(pi / r, Point3(2.0 * (w.x * w.y), 2.0 * (w.y * w.y), 2.0 * (w.y * w.z))) == Scale(-pi, w)
  {
    assert (r - 2.0 * w.y) * (r + 2.0 * w.y) == 0.0;
    if r == 2.0 * w.y {
      assert Scale(pi / r, Point3(2.0 * (w.x * w.y), 2.0 * (w.y * w.y), 2.0 * (w.y * w.z))) == Scale(pi, w);
    } else {
      ZeroProduct(r - 2.0 * w.y, r + 2.0 * w.y);
      assert Scale(pi / r, Point3(2.0 * (w.x * w.y), 2.0 * (w.y * w.y), 2.0 * (w.y * w.z))) == Scale(-pi, w);
    }
  }

  lemma HalfTurnScaleX(pi: real, r: real, w: Point3)
    requires r * r == 4.0 * (w.x * w.x) && r != 0.0
    ensures Scale(pi / r, Point3(2.0 * (w.x * w.x), 2.0 * (w.x * w.y), 2.0 * (w.x * w.z))) == Scale(pi, w)
         || Scale(pi / r, Point3(2.0 * (w.x * w.x), 2.0 * (w.x * w.y), 2.0 * (w.x * w.z))) == Scale(-pi, w)
  {
    assert (r - 2.0 * w.x) * (r + 2.0 * w.x) == 0.0;
    if r == 2.0 * w.x {
      assert Scale(pi / r, Point3(2.0 * (w.x * w.x), 2.0 * (w.x * w.y), 2.0 * (w.x * w.z))) == Scale(pi, w);
    } else {
      ZeroProduct(r - 2.0 * w.x, r + 2.0 * w.x);
      assert Scale(pi / r, Point3(2.0 * (w.x * w.x), 2.0 * (w.x * w.y), 2.0 * (w.x * w.z))) == Scale(-pi, w);
    }
  }

  lemma LogmapHalfTurnY(env: Env, w: Point3, c: real, s: real)
    requires NormSq(w) == 1.0 && c == -1.0 && s == 0.0 && SqrtIsRoot(env)
    requires Abs(2.0 * (w.z * w.z)) <= HalfTurnTolerance && Abs(2.0 * (w.y * w.y)) > HalfTurnTolerance
    ensures LogmapDefined(env, Rodriguez(w, c, s, false).value)
    ensures Logmap(env, Rodriguez(w, c, s, false).value) == Scale(env.pi, w)
         || Logmap(env, Rodriguez(w, c, s, false).value) == Scale(-env.pi, w)
  {
    var R := Rodriguez(w, c, s, false).value;
    HalfTurnEntries(w, c, s);
    HalfTurnTrace(w);
    assert Trace(R) == -1.0;
    assert R.r3.z + 1.0 == 2.0 * (w.z * w.z);
    assert R.r2.y + 1.0 == 2.0 * (w.y * w.y);
    SquareNonnegative(w.y);
    var r := env.sqrt(2.0 + 2.0 * R.r2.y);
    assert 2.0 + 2.0 * R.r2.y == 4.0 * (w.y * w.y);
    assert r * r == 4.0 * (w.y * w.y);
    assert r != 0.0;
    HalfTurnScaleY(env.pi, r, w);
  }

  lemma LogmapHalfTurnX(env: Env, w: Point3, c: real, s: real)
    requires NormSq(w) == 1.0 && c == -1.0 && s == 0.0 && SqrtIsRoot(env)
    requires Abs(2.0 * (w.z * w.z)) <= HalfTurnTolerance && Abs(2.0 * (w.y * w.y)) <= HalfTurnTolerance
    ensures LogmapDefined(env, Rodriguez(w, c, s, false).value)
    ensures Logmap(env, Rodriguez(w, c, s, false).value) == Scale(env.pi, w)
         || Logmap(env, Rodriguez(w, c, s, false).value) == Scale(-env.pi, w)
  {
    var R := Rodriguez(w, c, s, false).value;
    HalfTurnEntries(w, c, s);
    HalfTurnTrace(w);
    assert Trace(R) == -1.0;
    assert R.r3.z + 1.0 == 2.0 * (w.z * w.z);
    assert R.r2.y + 1.0 == 2.0 * (w.y * w.y);
    assert (w.x * w.x) + (w.y * w.y) + (w.z * w.z) - 1.0 == NormSq(w) - 1.0;
    var r := env.sqrt(2.0 + 2.0 * R.r1.x);
    assert 2.0 + 2.0 * R.r1.x == 4.0 * (w.x * w.x);
    assert 0.0 < 4.0 * (w.x * w.x);
    assert r * r == 4.0 * (w.x * w.x);
    assert r != 0.0;
    HalfTurnScaleX(env.pi, r, w);
  }

  /** Logmap inverts rodriguez at a half turn, up to the sign of the axis (a rotation by pi
      about w is also one by -pi): the trace is -1 and whichever diagonal entry the branch
      reads, the result is pi w or -pi w. */
  lemma LogmapHalfTurn(env: Env, w: Point3, c: real, s: real, debug: bool)
    requires NormSq(w) == 1.0 && c == -1.0 && s == 0.0 && SqrtIsRoot(env)
    ensures Rodriguez(w, c, s, debug).Success?
    ensures LogmapDefined(env, Rodriguez(w, c, s, debug).value)
    ensures Logmap(env, Rodriguez(w, c, s, debug).value) == Scale(env.pi, w)
         || Logmap(env, Rodriguez(w, c, s, debug).value) == Scale(-env.pi, w)
  {
    RodriguezCheckOnlyFails(w, c, s, debug);
    if Abs(2.0 * (w.z * w.z)) > HalfTurnTolerance {
      LogmapHalfTurnZ(env, w, c, s);
    } else if Abs(2.0 * (w.y * w.y)) > HalfTurnTolerance {
      LogmapHalfTurnY(env, w, c, s);
    } else {
      LogmapHalfTurnX(env, w, c, s);
    }
  }

  // ---------------------------------------------------------------------------------
  // retract and localCoordinates

  /** The three charts of Rot3. */
  datatype CoordinatesMode = EXPMAP | CALEY | SLOW_CALEY

  /** The skew matrix of omega scaled by -1/2, the argument SLOW_CALEY passes to Cayley<3>. */
  function SlowCayleyArgument(omega: Point3): Mat3 {
    MatScale(-0.5, Skew(omega))
  }

  /** retract(omega, mode): this rotation composed with the chart's rotation at omega. */
  function Retract(env: Env, R: Rot3, omega: Point3, mode: CoordinatesMode): Rot3 {
    match mode
    case EXPMAP => Mul(R, env.expmap(omega))
    case CALEY => Mul(R, CayleyRot(omega))
    case SLOW_CALEY => Mul(R, FromMatrix(env.cayley(SlowCayleyArgument(omega))))
  }

  /** The CALEY extraction applied to the entries of a matrix. */
  function CayleyOfMatrix(A: Mat3): Point3
    requires CayleyDenominator(A.m00, A.m01, A.m02, A.m10, A.m11, A.m12, A.m20, A.m21, A.m22) != 0.0
  {
    CayleyCoordinates(A.m00, A.m01, A.m02, A.m10, A.m11, A.m12, A.m20, A.m21, A.m22)
  }

  /** localCoordinates divides by zero nowhere: Logmap's divisors in EXPMAP mode, the CALEY
      denominator in CALEY mode; SLOW_CALEY leaves it to Cayley<3>. */
  predicate LocalCoordinatesDefined(env: Env, R: Rot3, T: Rot3, mode: CoordinatesMode) {
    match mode
    case EXPMAP => LogmapDefined(env, Between(R, T, false, false).value)
    case CALEY =>
      var A := Matrix(Between(R, T, false, false).value);
      CayleyDenominator(A.m00, A.m01, A.m02, A.m10, A.m11, A.m12, A.m20, A.m21, A.m22) != 0.0
    case SLOW_CALEY => true
  }

  /** localCoordinates(T, mode): the chart's coordinates of between(T) = R^T T. */
  function LocalCoordinates(env: Env, R: Rot3, T: Rot3, mode: CoordinatesMode): Point3
    requires LocalCoordinatesDefined(env, R, T, mode)
  {
    match mode
    case EXPMAP => Logmap(env, Between(R, T, false, false).value)
    case CALEY => CayleyOfMatrix(Matrix(Between(R, T, false, false).value))
    case SLOW_CALEY =>
      var Omega := env.cayley(Matrix(Between(R, T, false, false).value));
      Scale(-2.0, Point3(Omega.m21, Omega.m02, Omega.m10))
  }

  /** The relative rotation between R and R C is C, for a rotation R. */
  lemma BetweenOfRetract(R: Rot3, C: Rot3)
    requires IsRotation(R)
    ensures Between(R, Mul(R, C), false, false).value == C
  {
    BetweenRelative(R, Mul(R, C));
    MulAssociative(Inverse(R, false).value, R, C);
    MulInverse(R);
    MulIdentity(C);
  }

  /** The CALEY rotation at omega = 0 is the identity: f = 1/4. */
  // o is a parameter, here and in RetractCayleyZero, so that any point equal to zero applies.
  lemma CayleyAtZero(o: Point3)
    requires o.x == 0.0 && o.y == 0.0 && o.z == 0.0
    ensures CayleyRot(o) == Identity()
  {
    CayleyEntries(o);
    CayleyScaleInverse(o);
  }

  /** retract(0, CALEY) is the rotation itself. */
  lemma RetractCayleyZero(env: Env, R: Rot3, o: Point3)
    requires o == Zero()
    ensures Retract(env, R, o, CALEY) == R
  {
    CayleyAtZero(o);
    MulIdentity(R);
  }

  /** retract stays in SO(3): always in CALEY mode; in the two others when Expmap, or
      Cayley<3> of -skew(omega)/2, gives a rotation. */
  lemma RetractIsRotation(env: Env, R: Rot3, omega: Point3, mode: CoordinatesMode)
    requires IsRotation(R)
    requires mode == EXPMAP ==> IsRotation(env.expmap(omega))
    requires mode == SLOW_CALEY ==> IsRotation(FromMatrix(env.cayley(SlowCayleyArgument(omega))))
    ensures IsRotation(Retract(env, R, omega, mode))
  {
    match mode
    case EXPMAP => MulIsRotation(R, env.expmap(omega));
    case CALEY =>
      CayleyIsRotation(omega);
      MulIsRotation(R, CayleyRot(omega));
    case SLOW_CALEY => MulIsRotation(R, FromMatrix(env.cayley(SlowCayleyArgument(omega))));
  }

  /** The CALEY chart round trip: localCoordinates(retract(omega)) == omega, from any
      rotation, with no condition on omega. */
  lemma LocalCoordinatesRetractCayley(env: Env, R: Rot3, omega: Point3)
    requires IsRotation(R)
    ensures LocalCoordinatesDefined(env, R, Retract(env, R, omega, CALEY), CALEY)
    ensures LocalCoordinates(env, R, Retract(env, R, omega, CALEY), CALEY) == omega
  {
    BetweenOfRetract(R, CayleyRot(omega));
    CayleyRoundTrip(omega);
  }

  /** Every rotation B with a nonzero CALEY denominator is the CALEY rotation of its own
      CALEY coordinates w: with D the denominator and n the numerators, D w = -4 n, and both
      B and CayleyRot(w) carry 2 D I + 4 skew(n) to 2 D I - 4 skew(n), an invertible matrix. */
  lemma CayleyOfRotation(B: Rot3)
    requires IsRotation(B)
    requires CayleyDenominator(Matrix(B).m00, Matrix(B).m01, Matrix(B).m02, Matrix(B).m10, Matrix(B).m11,
                               Matrix(B).m12, Matrix(B).m20, Matrix(B).m21, Matrix(B).m22) != 0.0
    ensures CayleyRot(CayleyOfMatrix(Matrix(B))) == B
  {
    var A := Matrix(B);
    var D := CayleyDenominator(A.m00, A.m01, A.m02, A.m10, A.m11, A.m12, A.m20, A.m21, A.m22);
    var n := CayleyNumerators(A.m00, A.m01, A.m02, A.m10, A.m11, A.m12, A.m20, A.m21, A.m22);
    var w := CayleyOfMatrix(A);
    assert SpecialOrthogonalEntries(A.m00, A.m01, A.m02, A.m10, A.m11, A.m12, A.m20, A.m21, A.m22);
    RotationCayleyRelation(A);
    CayleyCoordinatesScaled(A.m00, A.m01, A.m02, A.m10, A.m11, A.m12, A.m20, A.m21, A.m22);
    CayleyRotRelation(w, D);
    ShiftedSkewInvertible(2.0 * D, Scale(4.0, n));
    MatCancelRight(A, Matrix(CayleyRot(w)), ShiftedSkew(2.0 * D, Scale(4.0, n)));
    MatrixInjective(B, CayleyRot(w));
  }

  /** The other CALEY chart round trip: retract(localCoordinates(T)) == T, for rotations R and
      T whose relative rotation has a nonzero CALEY denominator. */
  lemma RetractLocalCoordinatesCayley(env: Env, R: Rot3, T: Rot3)
    requires IsRotation(R) && IsRotation(T) && LocalCoordinatesDefined(env, R, T, CALEY)
    ensures Retract(env, R, LocalCoordinates(env, R, T, CALEY), CALEY) == T
  {
    BetweenRelative(R, T);
    InverseIsRotation(R);
    MulIsRotation(Inverse(R, false).value, T);
    CayleyOfRotation(Between(R, T, false, false).value);
  }

  /** The EXPMAP chart round trip reduces to the Log map of Expmap: localCoordinates of
      retract(omega) is Logmap(Expmap(omega)), from any rotation. */
  lemma LocalCoordinatesRetractExpmap(env: Env, R: Rot3, omega: Point3)
    requires IsRotation(R) && LogmapDefined(env, env.expmap(omega))
    ensures LocalCoordinatesDefined(env, R, Retract(env, R, omega, EXPMAP), EXPMAP)
    ensures LocalCoordinates(env, R, Retract(env, R, omega, EXPMAP), EXPMAP) == Logmap(env, env.expmap(omega))
  {
    BetweenOfRetract(R, env.expmap(omega));
  }

  /** The coordinates of a rotation relative to itself are zero, in EXPMAP and in CALEY mode. */
  lemma LocalCoordinatesSelf(env: Env, R: Rot3, mode: CoordinatesMode)
    requires IsRotation(R) && mode != SLOW_CALEY
    ensures LocalCoordinatesDefined(env, R, R, mode)
    ensures LocalCoordinates(env, R, R, mode) == Zero()
  {
    if mode == EXPMAP {
      BetweenSelf(R);
      LogmapIdentity(env);
    } else {
      var o := Zero();
      LocalCoordinatesRetractCayley(env, R, o);
      RetractCayleyZero(env, R, o);
    }
  }
}
