/** Rodrigues' formula, the Log map and the two coordinate charts (EXPMAP and CALEY) of
    gtsam's Rot3 in its 3x3-matrix representation (gtsam/geometry/Rot3M.cpp).
    The transcendental library functions are parameters gathered in an Env value; the
    double-precision thresholds are kept as branch conditions on exact reals. */
module Rot3Charts {
  import opened Wrappers
  import opened Algebra
  import opened Rot3M

  /** The library functions the code calls and this model does not define: sin, cos, acos,
      sqrt, the Euclidean norm of a vector, the constant pi, and two functions defined
      outside Rot3M.cpp: Expmap (used by the EXPMAP chart) and the matrix Cayley transform
      Cayley<3> (used by the SLOW_CALEY chart). */
  datatype Env = Env(sin: real -> real, cos: real -> real, acos: real -> real,
                     sqrt: real -> real, norm: Point3 -> real, pi: real,
                     expmap: Point3 -> Rot3, cayley: Mat3 -> Mat3)

  /** The error message of rodriguez' unit-axis check. */
  const RodriguezAxisMessage: string := "rodriguez: length of n should be 1"

  // ---------------------------------------------------------------------------------
  // Rodrigues' formula

  /** rodriguez(w, theta) with c = cos(theta) and s = sin(theta) given as reals. The check of
      the axis length is compiled only without NDEBUG: `debug` says whether it is. */
  function Rodriguez(w: Point3, c: real, s: real, debug: bool): (r: Result<Rot3, Error>)
    ensures r.Failure? <==> debug && Abs(NormSq(w) - 1.0) > 0.000000001
    ensures r.Failure? ==> r.error == DomainError(RodriguezAxisMessage)
  {
    var wx, wy, wz := w.x, w.y, w.z;
    var wwTxx, wwTyy, wwTzz := wx * wx, wy * wy, wz * wz;
    var l_n := wwTxx + wwTyy + wwTzz;
    if debug && Abs(l_n - 1.0) > 0.000000001 then
      Failure(DomainError(RodriguezAxisMessage))
    else
      var c_1 := 1.0 - c;
      var swx, swy, swz := wx * s, wy * s, wz * s;
      var C00, C01, C02 := c_1 * wwTxx, c_1 * wx * wy, c_1 * wx * wz;
      var C11, C12 := c_1 * wwTyy, c_1 * wy * wz;
      var C22 := c_1 * wwTzz;
      Success(FromEntries(c + C00, -swz + C01, swy + C02,
                          swz + C01, c + C11, -swx + C12,
                          -swy + C02, swx + C12, c + C22))
  }

  /** The three shapes of entry in which the formula and the code's expressions differ
      only by rearrangement. */
  lemma RodriguezTermDiag(c: real, s: real, o: real)
    ensures (c * 1.0 + s * 0.0) + (1.0 - c) * o == c + (1.0 - c) * o
  {}

  lemma RodriguezTermPlus(c: real, s: real, a: real, p: real, q: real)
    ensures (c * 0.0 + s * a) + (1.0 - c) * (p * q) == a * s + (1.0 - c) * p * q
    ensures (c * 0.0 + s * a) + (1.0 - c) * (q * p) == a * s + (1.0 - c) * p * q
  {}

  lemma RodriguezTermMinus(c: real, s: real, a: real, p: real, q: real)
    ensures (c * 0.0 + s * -a) + (1.0 - c) * (p * q) == -(a * s) + (1.0 - c) * p * q
    ensures (c * 0.0 + s * -a) + (1.0 - c) * (q * p) == -(a * s) + (1.0 - c) * p * q
  {}

  /** The matrix rodriguez returns is the textbook Rodrigues formula
      c I + s [w]x + (1 - c) w w^T. */
  lemma RodriguezFormula(w: Point3, c: real, s: real, debug: bool)
    requires Rodriguez(w, c, s, debug).Success?
    ensures Matrix(Rodriguez(w, c, s, debug).value) == AxisAngle(w, c, s)
  {
    RodriguezCheckOnlyFails(w, c, s, debug);
    RodriguezReleaseEntries(w, c, s);
    AxisAngle00(w, c, s);
    AxisAngle01(w, c, s);
    AxisAngle02(w, c, s);
    AxisAngle10(w, c, s);
    AxisAngle11(w, c, s);
    AxisAngle12(w, c, s);
    AxisAngle20(w, c, s);
    AxisAngle21(w, c, s);
    AxisAngle22(w, c, s);
    RodriguezTermDiag(c, s, w.x * w.x);
    RodriguezTermDiag(c, s, w.y * w.y);
    RodriguezTermDiag(c, s, w.z * w.z);
    RodriguezTermPlus(c, s, w.z, w.x, w.y);
    RodriguezTermPlus(c, s, w.y, w.x, w.z);
    RodriguezTermPlus(c, s, w.x, w.y, w.z);
    RodriguezTermMinus(c, s, w.z, w.x, w.y);
    RodriguezTermMinus(c, s, w.x, w.y, w.z);
    RodriguezTermMinus(c, s, w.y, w.x, w.z);
  }

  // The polynomial identities behind RodriguezIsRotation, on the entries of the formula
  // with the axis (wx, wy, wz) and the pair (c, s) as plain reals: each is an algebraic
  // consequence of c^2 + s^2 = 1 and wx^2 + wy^2 + wz^2 = 1, the assert giving the multipliers.

  lemma RodriguezColumn1Unit(wx: real, wy: real, wz: real, c: real, s: real)
    requires c * c + s * s == 1.0 && wx * wx + wy * wy + wz * wz == 1.0
    ensures Dot3(c + (1.0 - c) * (wx * wx), wz * s + (1.0 - c) * wx * wy, -(wy * s) + (1.0 - c) * wx * wz, c + (1.0 - c) * (wx * wx), wz * s + (1.0 - c) * wx * wy, -(wy * s) + (1.0 - c) * wx * wz) == 1.0
  {
    assert Dot3(c + (1.0 - c) * (wx * wx), wz * s + (1.0 - c) * wx * wy, -(wy * s) + (1.0 - c) * wx * wz, c + (1.0 - c) * (wx * wx), wz * s + (1.0 - c) * wx * wy, -(wy * s) + (1.0 - c) * wx * wz) - 1.0
        == (c * c + s * s - 1.0) * (wy * wy + wz * wz) + (wx * wx + wy * wy + wz * wz - 1.0) * (1.0 - c * c + wx * wx - 2.0 * c * wx * wx + c * c * wx * wx);
  }

  lemma RodriguezColumn2Unit(wx: real, wy: real, wz: real, c: real, s: real)
    requires c * c + s * s == 1.0 && wx * wx + wy * wy + wz * wz == 1.0
    ensures Dot3(-(wz * s) + (1.0 - c) * wx * wy, c + (1.0 - c) * (wy * wy), wx * s + (1.0 - c) * wy * wz, -(wz * s) + (1.0 - c) * wx * wy, c + (1.0 - c) * (wy * wy), wx * s + (1.0 - c) * wy * wz) == 1.0
  {
    assert Dot3(-(wz * s) + (1.0 - c) * wx * wy, c + (1.0 - c) * (wy * wy), wx * s + (1.0 - c) * wy * wz, -(wz * s) + (1.0 - c) * wx * wy, c + (1.0 - c) * (wy * wy), wx * s + (1.0 - c) * wy * wz) - 1.0
        == (c * c + s * s - 1.0) * (wx * wx + wz * wz) + (wx * wx + wy * wy + wz * wz - 1.0) * (1.0 - c * c + wy * wy - 2.0 * c * wy * wy + c * c * wy * wy);
  }

  lemma RodriguezColumn3Unit(wx: real, wy: real, wz: real, c: real, s: real)
    requires c * c + s * s == 1.0 && wx * wx + wy * wy + wz * wz == 1.0
    ensures Dot3(wy * s + (1.0 - c) * wx * wz, -(wx * s) + (1.0 - c) * wy * wz, c + (1.0 - c) * (wz * wz), wy * s + (1.0 - c) * wx * wz, -(wx * s) + (1.0 - c) * wy * wz, c + (1.0 - c) * (wz * wz)) == 1.0
  {
    assert Dot3(wy * s + (1.0 - c) * wx * wz, -(wx * s) + (1.0 - c) * wy * wz, c + (1.0 - c) * (wz * wz), wy * s + (1.0 - c) * wx * wz, -(wx * s) + (1.0 - c) * wy * wz, c + (1.0 - c) * (wz * wz)) - 1.0
        == (c * c + s * s - 1.0) * (wx * wx + wy * wy) + (wx * wx + wy * wy + wz * wz - 1.0) * (1.0 - c * c + wz * wz - 2.0 * c * wz * wz + c * c * wz * wz);
  }

  lemma RodriguezColumns12Orthogonal(wx: real, wy: real, wz: real, c: real, s: real)
    requires c * c + s * s == 1.0 && wx * wx + wy * wy + wz * wz == 1.0
    ensures Dot3(c + (1.0 - c) * (wx * wx), wz * s + (1.0 - c) * wx * wy, -(wy * s) + (1.0 - c) * wx * wz, -(wz * s) + (1.0 - c) * wx * wy, c + (1.0 - c) * (wy * wy), wx * s + (1.0 - c) * wy * wz) == 0.0
  {
    assert Dot3(c + (1.0 - c) * (wx * wx), wz * s + (1.0 - c) * wx * wy, -(wy * s) + (1.0 - c) * wx * wz, -(wz * s) + (1.0 - c) * wx * wy, c + (1.0 - c) * (wy * wy), wx * s + (1.0 - c) * wy * wz)
        == (c * c + s * s - 1.0) * (-wx * wy) + (wx * wx + wy * wy + wz * wz - 1.0) * (wx * wy - 2.0 * c * wx * wy + c * c * wx * wy);
  }

  lemma RodriguezColumns13Orthogonal(wx: real, wy: real, wz: real, c: real, s: real)
    requires c * c + s * s == 1.0 && wx * wx + wy * wy + wz * wz == 1.0
    ensures Dot3(c + (1.0 - c) * (wx * wx), wz * s + (1.0 - c) * wx * wy, -(wy * s) + (1.0 - c) * wx * wz, wy * s + (1.0 - c) * wx * wz, -(wx * s) + (1.0 - c) * wy * wz, c + (1.0 - c) * (wz * wz)) == 0.0
  {
    assert Dot3(c + (1.0 - c) * (wx * wx), wz * s + (1.0 - c) * wx * wy, -(wy * s) + (1.0 - c) * wx * wz, wy * s + (1.0 - c) * wx * wz, -(wx * s) + (1.0 - c) * wy * wz, c + (1.0 - c) * (wz * wz))
        == (c * c + s * s - 1.0) * (-wx * wz) + (wx * wx + wy * wy + wz * wz - 1.0) * (wx * wz - 2.0 * c * wx * wz + c * c * wx * wz);
  }

  lemma RodriguezColumns23Orthogonal(wx: real, wy: real, wz: real, c: real, s: real)
    requires c * c + s * s == 1.0 && wx * wx + wy * wy + wz * wz == 1.0
    ensures Dot3(-(wz * s) + (1.0 - c) * wx * wy, c + (1.0 - c) * (wy * wy), wx * s + (1.0 - c) * wy * wz, wy * s + (1.0 - c) * wx * wz, -(wx * s) + (1.0 - c) * wy * wz, c + (1.0 - c) * (wz * wz)) == 0.0
  {
    assert Dot3(-(wz * s) + (1.0 - c) * wx * wy, c + (1.0 - c) * (wy * wy), wx * s + (1.0 - c) * wy * wz, wy * s + (1.0 - c) * wx * wz, -(wx * s) + (1.0 - c) * wy * wz, c + (1.0 - c) * (wz * wz))
        == (c * c + s * s - 1.0) * (-wy * wz) + (wx * wx + wy * wy + wz * wz - 1.0) * (wy * wz - 2.0 * c * wy * wz + c * c * wy * wz);
  }

  lemma RodriguezDetOne(wx: real, wy: real, wz: real, c: real, s: real)
    requires c * c + s * s == 1.0 && wx * wx + wy * wy + wz * wz == 1.0
    ensures Det3(c + (1.0 - c) * (wx * wx), -(wz * s) + (1.0 - c) * wx * wy, wy * s + (1.0 - c) * wx * wz,
                 wz * s + (1.0 - c) * wx * wy, c + (1.0 - c) * (wy * wy), -(wx * s) + (1.0 - c) * wy * wz,
                 -(wy * s) + (1.0 - c) * wx * wz, wx * s + (1.0 - c) * wy * wz, c + (1.0 - c) * (wz * wz)) == 1.0
  {
    assert Det3(c + (1.0 - c) * (wx * wx), -(wz * s) + (1.0 - c) * wx * wy, wy * s + (1.0 - c) * wx * wz,
             wz * s + (1.0 - c) * wx * wy, c + (1.0 - c) * (wy * wy), -(wx * s) + (1.0 - c) * wy * wz,
             -(wy * s) + (1.0 - c) * wx * wz, wx * s + (1.0 - c) * wy * wz, c + (1.0 - c) * (wz * wz)) - 1.0
        == (c * c + s * s - 1.0) * (c * wx * wx + c * wy * wy + c * wz * wz + 2.0 * wx * wx * wy * wy + 2.0 * wx * wx * wz * wz + wx * wx * wx * wx + 2.0 * wy * wy * wz * wz + wy * wy * wy * wy + wz * wz * wz * wz - 2.0 * c * wx * wx * wy * wy - 2.0 * c * wx * wx * wz * wz - c * wx * wx * wx * wx - 2.0 * c * wy * wy * wz * wz - c * wy * wy * wy * wy - c * wz * wz * wz * wz) + (wx * wx + wy * wy + wz * wz - 1.0) * (1.0 + wx * wx + wy * wy + wz * wz - c * wx * wx - c * wy * wy - c * wz * wz - c * c * c - c * c * wx * wx - c * c * wy * wy - c * c * wz * wz + c * c * c * wx * wx + c * c * c * wy * wy + c * c * c * wz * wz);
  }

  /** The debug-build check only adds the error path: whenever rodriguez returns, it
      returns what the release build computes. */
  lemma RodriguezCheckOnlyFails(w: Point3, c: real, s: real, debug: bool)
    ensures Rodriguez(w, c, s, debug).Success? ==> Rodriguez(w, c, s, debug) == Rodriguez(w, c, s, false)
    ensures Rodriguez(w, c, s, false).Success?
  {}

  // The entries of the release build of rodriguez one at a time, and then all together.

  lemma RodriguezEntryR1X(w: Point3, c: real, s: real)
    ensures Rodriguez(w, c, s, false).value.r1.x == c + (1.0 - c) * (w.x * w.x)
  {}

  lemma RodriguezEntryR1Y(w: Point3, c: real, s: real)
    ensures Rodriguez(w, c, s, false).value.r1.y == w.z * s + (1.0 - c) * w.x * w.y
  {}

  lemma RodriguezEntryR1Z(w: Point3, c: real, s: real)
    ensures Rodriguez(w, c, s, false).value.r1.z == -(w.y * s) + (1.0 - c) * w.x * w.z
  {}

  lemma RodriguezEntryR2X(w: Point3, c: real, s: real)
    ensures Rodriguez(w, c, s, false).value.r2.x == -(w.z * s) + (1.0 - c) * w.x * w.y
  {}

  lemma RodriguezEntryR2Y(w: Point3, c: real, s: real)
    ensures Rodriguez(w, c, s, false).value.r2.y == c + (1.0 - c) * (w.y * w.y)
  {}

  lemma RodriguezEntryR2Z(w: Point3, c: real, s: real)
    ensures Rodriguez(w, c, s, false).value.r2.z == w.x * s + (1.0 - c) * w.y * w.z
  {}

  lemma RodriguezEntryR3X(w: Point3, c: real, s: real)
    ensures Rodriguez(w, c, s, false).value.r3.x == w.y * s + (1.0 - c) * w.x * w.z
  {}

  lemma RodriguezEntryR3Y(w: Point3, c: real, s: real)
    ensures Rodriguez(w, c, s, false).value.r3.y == -(w.x * s) + (1.0 - c) * w.y * w.z
  {}

  lemma RodriguezEntryR3Z(w: Point3, c: real, s: real)
    ensures Rodriguez(w, c, s, false).value.r3.z == c + (1.0 - c) * (w.z * w.z)
  {}

  /** The columns of the release build of rodriguez, written out. */
  lemma RodriguezReleaseEntries(w: Point3, c: real, s: real)
    ensures Rodriguez(w, c, s, false).value
        == Rot3(Point3(c + (1.0 - c) * (w.x * w.x), w.z * s + (1.0 - c) * w.x * w.y, -(w.y * s) + (1.0 - c) * w.x * w.z),
                Point3(-(w.z * s) + (1.0 - c) * w.x * w.y, c + (1.0 - c) * (w.y * w.y), w.x * s + (1.0 - c) * w.y * w.z),
                Point3(w.y * s + (1.0 - c) * w.x * w.z, -(w.x * s) + (1.0 - c) * w.y * w.z, c + (1.0 - c) * (w.z * w.z)))
  {
    RodriguezEntryR1X(w, c, s);
    RodriguezEntryR1Y(w, c, s);
    RodriguezEntryR1Z(w, c, s);
    RodriguezEntryR2X(w, c, s);
    RodriguezEntryR2Y(w, c, s);
    RodriguezEntryR2Z(w, c, s);
    RodriguezEntryR3X(w, c, s);
    RodriguezEntryR3Y(w, c, s);
    RodriguezEntryR3Z(w, c, s);
  }

  lemma ReleaseColumn1Unit(w: Point3, c: real, s: real)
    requires NormSq(w) == 1.0 && c * c + s * s == 1.0
    ensures Dot(Rodriguez(w, c, s, false).value.r1, Rodriguez(w, c, s, false).value.r1) == 1.0
  {
    RodriguezReleaseEntries(w, c, s);
    RodriguezColumn1Unit(w.x, w.y, w.z, c, s);
  }

  lemma ReleaseColumn2Unit(w: Point3, c: real, s: real)
    requires NormSq(w) == 1.0 && c * c + s * s == 1.0
    ensures Dot(Rodriguez(w, c, s, false).value.r2, Rodriguez(w, c, s, false).value.r2) == 1.0
  {
    RodriguezReleaseEntries(w, c, s);
    RodriguezColumn2Unit(w.x, w.y, w.z, c, s);
  }

  lemma ReleaseColumn3Unit(w: Point3, c: real, s: real)
    requires NormSq(w) == 1.0 && c * c + s * s == 1.0
    ensures Dot(Rodriguez(w, c, s, false).value.r3, Rodriguez(w, c, s, false).value.r3) == 1.0
  {
    RodriguezReleaseEntries(w, c, s);
    RodriguezColumn3Unit(w.x, w.y, w.z, c, s);
  }

  lemma ReleaseColumns12Orthogonal(w: Point3, c: real, s: real)
    requires NormSq(w) == 1.0 && c * c + s * s == 1.0
    ensures Dot(Rodriguez(w, c, s, false).value.r1, Rodriguez(w, c, s, false).value.r2) == 0.0
  {
    RodriguezReleaseEntries(w, c, s);
    RodriguezColumns12Orthogonal(w.x, w.y, w.z, c, s);
  }

  lemma ReleaseColumns13Orthogonal(w: Point3, c: real, s: real)
    requires NormSq(w) == 1.0 && c * c + s * s == 1.0
    ensures Dot(Rodriguez(w, c, s, false).value.r1, Rodriguez(w, c, s, false).value.r3) == 0.0
  {
    RodriguezReleaseEntries(w, c, s);
    RodriguezColumns13Orthogonal(w.x, w.y, w.z, c, s);
  }

  lemma ReleaseColumns23Orthogonal(w: Point3, c: real, s: real)
    requires NormSq(w) == 1.0 && c * c + s * s == 1.0
    ensures Dot(Rodriguez(w, c, s, false).value.r2, Rodriguez(w, c, s, false).value.r3) == 0.0
  {
    RodriguezReleaseEntries(w, c, s);
    RodriguezColumns23Orthogonal(w.x, w.y, w.z, c, s);
  }

  lemma ReleaseDetOne(w: Point3, c: real, s: real)
    requires NormSq(w) == 1.0 && c * c + s * s == 1.0
    ensures Det(Matrix(Rodriguez(w, c, s, false).value)) == 1.0
  {
    RodriguezReleaseEntries(w, c, s);
    RodriguezDetOne(w.x, w.y, w.z, c, s);
  }

  /** The release build of rodriguez, with a unit axis and (c, s) on the unit circle,
      returns a rotation. */
  lemma RodriguezReleaseIsRotation(w: Point3, c: real, s: real)
    requires NormSq(w) == 1.0 && c * c + s * s == 1.0
    ensures IsRotation(Rodriguez(w, c, s, false).value)
  {
    ReleaseColumn1Unit(w, c, s);
    ReleaseColumn2Unit(w, c, s);
    ReleaseColumn3Unit(w, c, s);
    ReleaseColumns12Orthogonal(w, c, s);
    ReleaseColumns13Orthogonal(w, c, s);
    ReleaseColumns23Orthogonal(w, c, s);
    ReleaseDetOne(w, c, s);
  }

  /** With a unit axis and (c, s) on the unit circle, rodriguez passes its check and
      returns a rotation. */
  lemma RodriguezIsRotation(w: Point3, c: real, s: real, debug: bool)
    requires NormSq(w) == 1.0 && c * c + s * s == 1.0
    ensures Rodriguez(w, c, s, debug).Success?
    ensures IsRotation(Rodriguez(w, c, s, debug).value)
  {
    RodriguezCheckOnlyFails(w, c, s, debug);
    RodriguezReleaseIsRotation(w, c, s);
  }

  /** An angle of zero (c = 1, s = 0) gives the identity, whatever the axis. */
  lemma RodriguezZeroAngle(w: Point3, c: real, s: real, debug: bool)
    requires c == 1.0 && s == 0.0
    ensures Rodriguez(w, c, s, false).value == Identity()
    ensures Rodriguez(w, c, s, debug).Success? ==> Rodriguez(w, c, s, debug).value == Identity()
  {
    RodriguezCheckOnlyFails(w, c, s, debug);
    RodriguezReleaseEntries(w, c, s);
  }

  /** The axis is fixed: R w = w for a unit axis w, whatever (c, s). */
  lemma RodriguezAxisFixed(w: Point3, c: real, s: real, debug: bool)
    requires NormSq(w) == 1.0
    ensures Rodriguez(w, c, s, debug).Success?
    ensures MulPoint(Rodriguez(w, c, s, debug).value, w) == w
  {
    RodriguezCheckOnlyFails(w, c, s, debug);
    RodriguezReleaseEntries(w, c, s);
    RodriguezFixesAxisX(w, c, s);
    RodriguezFixesAxisY(w, c, s);
    RodriguezFixesAxisZ(w, c, s);
  }

  // R w = w entry by entry: each is (1 - c) w_i (|w|^2 - 1) away from w_i.

  lemma RodriguezFixesAxisX(w: Point3, c: real, s: real)
    requires NormSq(w) == 1.0
    ensures Dot3(c + (1.0 - c) * (w.x * w.x), -(w.z * s) + (1.0 - c) * w.x * w.y, w.y * s + (1.0 - c) * w.x * w.z, w.x, w.y, w.z) == w.x
  {
    assert Dot3(c + (1.0 - c) * (w.x * w.x), -(w.z * s) + (1.0 - c) * w.x * w.y, w.y * s + (1.0 - c) * w.x * w.z, w.x, w.y, w.z) - w.x
        == (1.0 - c) * w.x * (w.x * w.x + w.y * w.y + w.z * w.z - 1.0);
  }

  lemma RodriguezFixesAxisY(w: Point3, c: real, s: real)
    requires NormSq(w) == 1.0
    ensures Dot3(w.z * s + (1.0 - c) * w.x * w.y, c + (1.0 - c) * (w.y * w.y), -(w.x * s) + (1.0 - c) * w.y * w.z, w.x, w.y, w.z) == w.y
  {
    assert Dot3(w.z * s + (1.0 - c) * w.x * w.y, c + (1.0 - c) * (w.y * w.y), -(w.x * s) + (1.0 - c) * w.y * w.z, w.x, w.y, w.z) - w.y
        == (1.0 - c) * w.y * (w.x * w.x + w.y * w.y + w.z * w.z - 1.0);
  }

  lemma RodriguezFixesAxisZ(w: Point3, c: real, s: real)
    requires NormSq(w) == 1.0
    ensures Dot3(-(w.y * s) + (1.0 - c) * w.x * w.z, w.x * s + (1.0 - c) * w.y * w.z, c + (1.0 - c) * (w.z * w.z), w.x, w.y, w.z) == w.z
  {
    assert Dot3(-(w.y * s) + (1.0 - c) * w.x * w.z, w.x * s + (1.0 - c) * w.y * w.z, c + (1.0 - c) * (w.z * w.z), w.x, w.y, w.z) - w.z
        == (1.0 - c) * w.z * (w.x * w.x + w.y * w.y + w.z * w.z - 1.0);
  }

  /** About the coordinate axes, rodriguez is Rx, Ry and Rz. */
  lemma RxIsRodriguez(c: real, s: real, debug: bool)
    ensures Rodriguez(Point3(1.0, 0.0, 0.0), c, s, debug) == Success(Rx(c, s))
  {}

  lemma RyIsRodriguez(c: real, s: real, debug: bool)
    ensures Rodriguez(Point3(0.0, 1.0, 0.0), c, s, debug) == Success(Ry(c, s))
  {}

  lemma RzIsRodriguez(c: real, s: real, debug: bool)
    ensures Rodriguez(Point3(0.0, 0.0, 1.0), c, s, debug) == Success(Rz(c, s))
  {}

  /** The threshold on |w| below which the vector overload returns the identity. */
  const SmallAngle: real := 0.0000000001

  /** rodriguez(w): the rotation by the angle t = |w| about the axis w / t, with |w|, cos(t)
      and sin(t) from env, and the identity when t < 1e-10. */
  function RodriguezVector(env: Env, w: Point3, debug: bool): (r: Result<Rot3, Error>)
    ensures env.norm(w) < SmallAngle ==> r == Success(Identity())
    ensures env.norm(w) >= SmallAngle ==> r == Rodriguez(AxisOf(w, env.norm(w)), env.cos(env.norm(w)), env.sin(env.norm(w)), debug)
  {
    var t := env.norm(w);
    if t < SmallAngle then Success(Identity())
    else Rodriguez(AxisOf(w, t), env.cos(t), env.sin(t), debug)
  }

  /** w / t, for t > 0. */
  function AxisOf(w: Point3, t: real): Point3
    requires t > 0.0
  {
    Point3(w.x / t, w.y / t, w.z / t)
  }

  lemma AxisOfTimes(w: Point3, t: real)
    requires t > 0.0
    ensures Scale(t, AxisOf(w, t)) == w
  {}

  /** A vector whose multiple by t != 0 has squared length t^2 is a unit vector. */
  lemma UnitWhenScaled(u: Point3, t: real)
    requires t != 0.0 && NormSq(Scale(t, u)) == Times(t, t)
    ensures NormSq(u) == 1.0
  {
    NormSqScale(t, u);
    CancelFactor(t, Times(t, NormSq(u)), t);
    assert Times(t, 1.0) == t;
    CancelFactor(t, NormSq(u), 1.0);
  }

  /** Dividing by the Euclidean norm gives a unit vector. */
  lemma AxisOfIsUnit(w: Point3, t: real)
    requires t > 0.0 && t * t == NormSq(w)
    ensures NormSq(AxisOf(w, t)) == 1.0
  {
    AxisOfTimes(w, t);
    assert Times(t, t) == NormSq(w);
    UnitWhenScaled(AxisOf(w, t), t);
  }

  /** When env's norm, cosine and sine are the true ones at w, the vector overload passes the
      axis check and returns a rotation. */
  lemma RodriguezVectorIsRotation(env: Env, w: Point3, debug: bool)
    requires env.norm(w) >= 0.0 && env.norm(w) * env.norm(w) == NormSq(w)
    requires env.cos(env.norm(w)) * env.cos(env.norm(w)) + env.sin(env.norm(w)) * env.sin(env.norm(w)) == 1.0
    ensures RodriguezVector(env, w, debug).Success?
    ensures IsRotation(RodriguezVector(env, w, debug).value)
  {
    var t := env.norm(w);
    if t < SmallAngle {
      IdentityIsRotation();
    } else {
      AxisOfIsUnit(w, t);
      RodriguezIsRotation(AxisOf(w, t), env.cos(t), env.sin(t), debug);
    }
  }

  // ---------------------------------------------------------------------------------
  // The CALEY chart

  /** The scale f = 1 / (4 + x^2 + y^2 + z^2) of the CALEY chart at omega = (x, y, z). */
  function CayleyScale(omega: Point3): real {
    1.0 / (4.0 + omega.x * omega.x + omega.y * omega.y + omega.z * omega.z)
  }

  /** The scale is the inverse of 4 + |omega|^2, a positive number. */
  lemma CayleyScaleInverse(omega: Point3)
    ensures CayleyScale(omega) * (4.0 + omega.x * omega.x + omega.y * omega.y + omega.z * omega.z) == 1.0
  {}

  /** The rotation retract builds in CALEY mode from omega = (x, y, z), with
      f = 1 / (4 + x^2 + y^2 + z^2): the Cayley transform of the skew matrix of omega / 2,
      written with no trigonometry. */
  function CayleyRot(omega: Point3): Rot3 {
    CayleyWithScale(omega, CayleyScale(omega))
  }

  /** The matrix of CayleyRot with the scale f given. */
  function CayleyWithScale(omega: Point3, f: real): Rot3 {
    var x, y, z := omega.x, omega.y, omega.z;
    var x2, y2, z2 := x * x, y * y, z * z;
    var xy, xz, yz := x * y, x * z, y * z;
    var twoF := 2.0 * f;
    FromEntries((4.0 + x2 - y2 - z2) * f, (xy - 2.0 * z) * twoF, (xz + 2.0 * y) * twoF,
                (xy + 2.0 * z) * twoF, (4.0 - x2 + y2 - z2) * f, (yz - 2.0 * x) * twoF,
                (xz - 2.0 * y) * twoF, (yz + 2.0 * x) * twoF, (4.0 - x2 - y2 + z2) * f)
  }

  /** The quantity localCoordinates divides 2 by in CALEY mode, for the matrix with rows
      (a, b, c), (d, e, f), (g, h, i). */
  function CayleyDenominator(a: real, b: real, c: real, d: real, e: real, f: real,
                             g: real, h: real, i: real): real {
    var di, ce, cd, fg := d * i, c * e, c * d, f * g;
    var M := 1.0 + e - f * h + i + e * i;
    cd * h + M + a * M - g * (c + ce) - b * (d + di - fg)
  }

  /** The denominator is det(I + A). */
  lemma CayleyDenominatorIsDet(a: real, b: real, c: real, d: real, e: real, f: real,
                               g: real, h: real, i: real)
    ensures CayleyDenominator(a, b, c, d, e, f, g, h, i) == Det3(1.0 + a, b, c, d, 1.0 + e, f, g, h, 1.0 + i)
  {}

  /** The three numerators of the closed form below, each to be multiplied by K. */
  function CayleyNumerators(a: real, b: real, c: real, d: real, e: real, f: real,
                            g: real, h: real, i: real): Point3 {
    var di, ce, cd, fg := d * i, c * e, c * d, f * g;
    Point3(a * f - cd + f, b * f - ce - c, fg - di - d)
  }

  /** The closed form localCoordinates uses in CALEY mode on the matrix with rows (a, b, c),
      (d, e, f), (g, h, i). The code divides without a check: the model asks that the
      denominator is not zero. */
  function CayleyCoordinates(a: real, b: real, c: real, d: real, e: real, f: real,
                             g: real, h: real, i: real): Point3
    requires CayleyDenominator(a, b, c, d, e, f, g, h, i) != 0.0
  {
    var K := 2.0 / CayleyDenominator(a, b, c, d, e, f, g, h, i);
    var n := CayleyNumerators(a, b, c, d, e, f, g, h, i);
    var x := n.x * K;
    var y := n.y * K;
    var z := n.z * K;
    Point3(-2.0 * x, -2.0 * y, -2.0 * z)
  }

  // The polynomial identities behind CayleyIsRotation and CayleyRoundTrip, on the entries of
  // CayleyRot with omega = (x, y, z) and the scale q as plain reals: each is an algebraic
  // consequence of q (4 + x^2 + y^2 + z^2) = 1, the assert giving the multiplier.

  lemma CayleyColumn1Unit(x: real, y: real, z: real, q: real)
    requires q * (4.0 + x * x + y * y + z * z) == 1.0
    ensures Dot3((4.0 + x * x - y * y - z * z) * q, (x * y + 2.0 * z) * (2.0 * q), (x * z - 2.0 * y) * (2.0 * q),
               (4.0 + x * x - y * y - z * z) * q, (x * y + 2.0 * z) * (2.0 * q), (x * z - 2.0 * y) * (2.0 * q)) == 1.0
  {
    assert Dot3((4.0 + x * x - y * y - z * z) * q, (x * y + 2.0 * z) * (2.0 * q), (x * z - 2.0 * y) * (2.0 * q),
                (4.0 + x * x - y * y - z * z) * q, (x * y + 2.0 * z) * (2.0 * q), (x * z - 2.0 * y) * (2.0 * q)) - 1.0
        == (q * (4.0 + x * x + y * y + z * z) - 1.0) * (1.0 + 4.0 * q + q * x * x + q * y * y + q * z * z);
  }

  lemma CayleyColumn2Unit(x: real, y: real, z: real, q: real)
    requires q * (4.0 + x * x + y * y + z * z) == 1.0
    ensures Dot3((x * y - 2.0 * z) * (2.0 * q), (4.0 - x * x + y * y - z * z) * q, (y * z + 2.0 * x) * (2.0 * q),
               (x * y - 2.0 * z) * (2.0 * q), (4.0 - x * x + y * y - z * z) * q, (y * z + 2.0 * x) * (2.0 * q)) == 1.0
  {
    assert Dot3((x * y - 2.0 * z) * (2.0 * q), (4.0 - x * x + y * y - z * z) * q, (y * z + 2.0 * x) * (2.0 * q),
                (x * y - 2.0 * z) * (2.0 * q), (4.0 - x * x + y * y - z * z) * q, (y * z + 2.0 * x) * (2.0 * q)) - 1.0
        == (q * (4.0 + x * x + y * y + z * z) - 1.0) * (1.0 + 4.0 * q + q * x * x + q * y * y + q * z * z);
  }

  lemma CayleyColumn3Unit(x: real, y: real, z: real, q: real)
    requires q * (4.0 + x * x + y * y + z * z) == 1.0
    ensures Dot3((x * z + 2.0 * y) * (2.0 * q), (y * z - 2.0 * x) * (2.0 * q), (4.0 - x * x - y * y + z * z) * q,
               (x * z + 2.0 * y) * (2.0 * q), (y * z - 2.0 * x) * (2.0 * q), (4.0 - x * x - y * y + z * z) * q) == 1.0
  {
    assert Dot3((x * z + 2.0 * y) * (2.0 * q), (y * z - 2.0 * x) * (2.0 * q), (4.0 - x * x - y * y + z * z) * q,
                (x * z + 2.0 * y) * (2.0 * q), (y * z - 2.0 * x) * (2.0 * q), (4.0 - x * x - y * y + z * z) * q) - 1.0
        == (q * (4.0 + x * x + y * y + z * z) - 1.0) * (1.0 + 4.0 * q + q * x * x + q * y * y + q * z * z);
  }

  lemma CayleyColumns12Orthogonal(x: real, y: real, z: real, q: real)
    requires q * (4.0 + x * x + y * y + z * z) == 1.0
    ensures Dot3((4.0 + x * x - y * y - z * z) * q, (x * y + 2.0 * z) * (2.0 * q), (x * z - 2.0 * y) * (2.0 * q),
               (x * y - 2.0 * z) * (2.0 * q), (4.0 - x * x + y * y - z * z) * q, (y * z + 2.0 * x) * (2.0 * q)) == 0.0
  {}

  lemma CayleyColumns13Orthogonal(x: real, y: real, z: real, q: real)
    requires q * (4.0 + x * x + y * y + z * z) == 1.0
    ensures Dot3((4.0 + x * x - y * y - z * z) * q, (x * y + 2.0 * z) * (2.0 * q), (x * z - 2.0 * y) * (2.0 * q),
               (x * z + 2.0 * y) * (2.0 * q), (y * z - 2.0 * x) * (2.0 * q), (4.0 - x * x - y * y + z * z) * q) == 0.0
  {}

  lemma CayleyColumns23Orthogonal(x: real, y: real, z: real, q: real)
    requires q * (4.0 + x * x + y * y + z * z) == 1.0
    ensures Dot3((x * y - 2.0 * z) * (2.0 * q), (4.0 - x * x + y * y - z * z) * q, (y * z + 2.0 * x) * (2.0 * q),
               (x * z + 2.0 * y) * (2.0 * q), (y * z - 2.0 * x) * (2.0 * q), (4.0 - x * x - y * y + z * z) * q) == 0.0
  {}

  /** det - 1 of the CALEY entries is a multiple of q (4 + x^2 + y^2 + z^2) - 1. */
  lemma CayleyDetExpansion(x: real, y: real, z: real, q: real)
    ensures Det3((4.0 + x * x - y * y - z * z) * q, (x * y - 2.0 * z) * (2.0 * q), (x * z + 2.0 * y) * (2.0 * q),
                (x * y + 2.0 * z) * (2.0 * q), (4.0 - x * x + y * y - z * z) * q, (y * z - 2.0 * x) * (2.0 * q),
                (x * z - 2.0 * y) * (2.0 * q), (y * z + 2.0 * x) * (2.0 * q), (4.0 - x * x - y * y + z * z) * q) - 1.0
         == Times(1.0 + 4.0 * q + 16.0 * q * q + q * x * x + q * y * y + q * z * z + 8.0 * q * q * x * x + 8.0 * q * q * y * y + 8.0 * q * q * z * z + 2.0 * q * q * x * x * y * y + 2.0 * q * q * x * x * z * z + q * q * x * x * x * x + 2.0 * q * q * y * y * z * z + q * q * y * y * y * y + q * q * z * z * z * z, q * (4.0 + x * x + y * y + z * z) - 1.0)
  {}

  lemma CayleyDetOne(x: real, y: real, z: real, q: real)
    requires q * (4.0 + x * x + y * y + z * z) == 1.0
    ensures Det3((4.0 + x * x - y * y - z * z) * q, (x * y - 2.0 * z) * (2.0 * q), (x * z + 2.0 * y) * (2.0 * q),
               (x * y + 2.0 * z) * (2.0 * q), (4.0 - x * x + y * y - z * z) * q, (y * z - 2.0 * x) * (2.0 * q),
               (x * z - 2.0 * y) * (2.0 * q), (y * z + 2.0 * x) * (2.0 * q), (4.0 - x * x - y * y + z * z) * q) == 1.0
  {
    CayleyDetExpansion(x, y, z, q);
    TimesZero(1.0 + 4.0 * q + 16.0 * q * q + q * x * x + q * y * y + q * z * z + 8.0 * q * q * x * x + 8.0 * q * q * y * y + 8.0 * q * q * z * z + 2.0 * q * q * x * x * y * y + 2.0 * q * q * x * x * z * z + q * q * x * x * x * x + 2.0 * q * q * y * y * z * z + q * q * y * y * y * y + q * q * z * z * z * z, q * (4.0 + x * x + y * y + z * z) - 1.0);
  }

  /** The CALEY denominator of the CALEY entries minus 32 q is a multiple of
      q (4 + x^2 + y^2 + z^2) - 1. */
  lemma CayleyDenominatorExpansion(x: real, y: real, z: real, q: real)
    ensures CayleyDenominator((4.0 + x * x - y * y - z * z) * q, (x * y - 2.0 * z) * (2.0 * q), (x * z + 2.0 * y) * (2.0 * q),
                            (x * y + 2.0 * z) * (2.0 * q), (4.0 - x * x + y * y - z * z) * q, (y * z - 2.0 * x) * (2.0 * q),
                            (x * z - 2.0 * y) * (2.0 * q), (y * z + 2.0 * x) * (2.0 * q), (4.0 - x * x - y * y + z * z) * q) - 32.0 * q
         == Times(-1.0 + 16.0 * q + 16.0 * q * q + 8.0 * q * q * x * x + 8.0 * q * q * y * y + 8.0 * q * q * z * z + 2.0 * q * q * x * x * y * y + 2.0 * q * q * x * x * z * z + q * q * x * x * x * x + 2.0 * q * q * y * y * z * z + q * q * y * y * y * y + q * q * z * z * z * z, q * (4.0 + x * x + y * y + z * z) - 1.0)
  {}

  lemma CayleyDenominatorValue(x: real, y: real, z: real, q: real)
    requires q * (4.0 + x * x + y * y + z * z) == 1.0
    ensures CayleyDenominator((4.0 + x * x - y * y - z * z) * q, (x * y - 2.0 * z) * (2.0 * q), (x * z + 2.0 * y) * (2.0 * q),
                            (x * y + 2.0 * z) * (2.0 * q), (4.0 - x * x + y * y - z * z) * q, (y * z - 2.0 * x) * (2.0 * q),
                            (x * z - 2.0 * y) * (2.0 * q), (y * z + 2.0 * x) * (2.0 * q), (4.0 - x * x - y * y + z * z) * q) == 32.0 * q
  {
    CayleyDenominatorExpansion(x, y, z, q);
    TimesZero(-1.0 + 16.0 * q + 16.0 * q * q + 8.0 * q * q * x * x + 8.0 * q * q * y * y + 8.0 * q * q * z * z + 2.0 * q * q * x * x * y * y + 2.0 * q * q * x * x * z * z + q * q * x * x * x * x + 2.0 * q * q * y * y * z * z + q * q * y * y * y * y + q * q * z * z * z * z, q * (4.0 + x * x + y * y + z * z) - 1.0);
  }

  lemma CayleyNumeratorX(x: real, y: real, z: real, q: real)
    requires q * (4.0 + x * x + y * y + z * z) == 1.0
    ensures CayleyNumerators((4.0 + x * x - y * y - z * z) * q, (x * y - 2.0 * z) * (2.0 * q), (x * z + 2.0 * y) * (2.0 * q),
                             (x * y + 2.0 * z) * (2.0 * q), (4.0 - x * x + y * y - z * z) * q, (y * z - 2.0 * x) * (2.0 * q),
                             (x * z - 2.0 * y) * (2.0 * q), (y * z + 2.0 * x) * (2.0 * q), (4.0 - x * x - y * y + z * z) * q).x
         == -8.0 * q * x
  {
    assert ((4.0 + x * x - y * y - z * z) * q) * ((y * z - 2.0 * x) * (2.0 * q)) - ((x * z + 2.0 * y) * (2.0 * q)) * ((x * y + 2.0 * z) * (2.0 * q)) + ((y * z - 2.0 * x) * (2.0 * q)) + 8.0 * q * x
        == (q * (4.0 + x * x + y * y + z * z) - 1.0) * (-4.0 * q * x - 2.0 * q * y * z);
  }

  lemma CayleyNumeratorY(x: real, y: real, z: real, q: real)
    requires q * (4.0 + x * x + y * y + z * z) == 1.0
    ensures CayleyNumerators((4.0 + x * x - y * y - z * z) * q, (x * y - 2.0 * z) * (2.0 * q), (x * z + 2.0 * y) * (2.0 * q),
                             (x * y + 2.0 * z) * (2.0 * q), (4.0 - x * x + y * y - z * z) * q, (y * z - 2.0 * x) * (2.0 * q),
                             (x * z - 2.0 * y) * (2.0 * q), (y * z + 2.0 * x) * (2.0 * q), (4.0 - x * x - y * y + z * z) * q).y
         == -8.0 * q * y
  {
    assert ((x * y - 2.0 * z) * (2.0 * q)) * ((y * z - 2.0 * x) * (2.0 * q)) - ((x * z + 2.0 * y) * (2.0 * q)) * ((4.0 - x * x + y * y - z * z) * q) - ((x * z + 2.0 * y) * (2.0 * q)) + 8.0 * q * y
        == (q * (4.0 + x * x + y * y + z * z) - 1.0) * (-4.0 * q * y + 2.0 * q * x * z);
  }

  lemma CayleyNumeratorZ(x: real, y: real, z: real, q: real)
    requires q * (4.0 + x * x + y * y + z * z) == 1.0
    ensures CayleyNumerators((4.0 + x * x - y * y - z * z) * q, (x * y - 2.0 * z) * (2.0 * q), (x * z + 2.0 * y) * (2.0 * q),
                             (x * y + 2.0 * z) * (2.0 * q), (4.0 - x * x + y * y - z * z) * q, (y * z - 2.0 * x) * (2.0 * q),
                             (x * z - 2.0 * y) * (2.0 * q), (y * z + 2.0 * x) * (2.0 * q), (4.0 - x * x - y * y + z * z) * q).z
         == -8.0 * q * z
  {
    assert ((y * z - 2.0 * x) * (2.0 * q)) * ((x * z - 2.0 * y) * (2.0 * q)) - ((x * y + 2.0 * z) * (2.0 * q)) * ((4.0 - x * x - y * y + z * z) * q) - ((x * y + 2.0 * z) * (2.0 * q)) + 8.0 * q * z
        == (q * (4.0 + x * x + y * y + z * z) - 1.0) * (-4.0 * q * z + 2.0 * q * x * y);
  }

  /** The extraction, given its denominator 32 q and its three numerators -8 q (x, y, z),
      returns (x, y, z). */
  lemma CayleyCoordinatesFromParts(a: real, b: real, c: real, d: real, e: real, f: real,
                                   g: real, h: real, i: real, q: real, x: real, y: real, z: real)
    requires q != 0.0 && CayleyDenominator(a, b, c, d, e, f, g, h, i) == 32.0 * q
    requires CayleyNumerators(a, b, c, d, e, f, g, h, i) == Point3(-8.0 * q * x, -8.0 * q * y, -8.0 * q * z)
    ensures CayleyCoordinates(a, b, c, d, e, f, g, h, i) == Point3(x, y, z)
  {}

  // The entries of CayleyWithScale one at a time, and then all together.

  lemma CayleyEntryR1X(omega: Point3, f: real)
    ensures CayleyWithScale(omega, f).r1.x == (4.0 + omega.x * omega.x - omega.y * omega.y - omega.z * omega.z) * f
  {}

  lemma CayleyEntryR2X(omega: Point3, f: real)
    ensures CayleyWithScale(omega, f).r2.x == (omega.x * omega.y - 2.0 * omega.z) * (2.0 * f)
  {}

  lemma CayleyEntryR3X(omega: Point3, f: real)
    ensures CayleyWithScale(omega, f).r3.x == (omega.x * omega.z + 2.0 * omega.y) * (2.0 * f)
  {}

  lemma CayleyEntryR1Y(omega: Point3, f: real)
    ensures CayleyWithScale(omega, f).r1.y == (omega.x * omega.y + 2.0 * omega.z) * (2.0 * f)
  {}

  lemma CayleyEntryR2Y(omega: Point3, f: real)
    ensures CayleyWithScale(omega, f).r2.y == (4.0 - omega.x * omega.x + omega.y * omega.y - omega.z * omega.z) * f
  {}

  lemma CayleyEntryR3Y(omega: Point3, f: real)
    ensures CayleyWithScale(omega, f).r3.y == (omega.y * omega.z - 2.0 * omega.x) * (2.0 * f)
  {}

  lemma CayleyEntryR1Z(omega: Point3, f: real)
    ensures CayleyWithScale(omega, f).r1.z == (omega.x * omega.z - 2.0 * omega.y) * (2.0 * f)
  {}

  lemma CayleyEntryR2Z(omega: Point3, f: real)
    ensures CayleyWithScale(omega, f).r2.z == (omega.y * omega.z + 2.0 * omega.x) * (2.0 * f)
  {}

  lemma CayleyEntryR3Z(omega: Point3, f: real)
    ensures CayleyWithScale(omega, f).r3.z == (4.0 - omega.x * omega.x - omega.y * omega.y + omega.z * omega.z) * f
  {}

  /** The entries of CayleyWithScale, written out in omega and f. */
  lemma CayleyWithScaleEntries(omega: Point3, f: real)
    ensures CayleyWithScale(omega, f)
         == FromEntries((4.0 + omega.x * omega.x - omega.y * omega.y - omega.z * omega.z) * f,
                     (omega.x * omega.y - 2.0 * omega.z) * (2.0 * f),
                     (omega.x * omega.z + 2.0 * omega.y) * (2.0 * f),
                     (omega.x * omega.y + 2.0 * omega.z) * (2.0 * f),
                     (4.0 - omega.x * omega.x + omega.y * omega.y - omega.z * omega.z) * f,
                     (omega.y * omega.z - 2.0 * omega.x) * (2.0 * f),
                     (omega.x * omega.z - 2.0 * omega.y) * (2.0 * f),
                     (omega.y * omega.z + 2.0 * omega.x) * (2.0 * f),
                     (4.0 - omega.x * omega.x - omega.y * omega.y + omega.z * omega.z) * f)
  {
    CayleyEntryR1X(omega, f);
    CayleyEntryR2X(omega, f);
    CayleyEntryR3X(omega, f);
    CayleyEntryR1Y(omega, f);
    CayleyEntryR2Y(omega, f);
    CayleyEntryR3Y(omega, f);
    CayleyEntryR1Z(omega, f);
    CayleyEntryR2Z(omega, f);
    CayleyEntryR3Z(omega, f);
  }

  /** The entries of CayleyRot, written out with the scale 1 / (4 + |omega|^2). */
  lemma CayleyEntries(omega: Point3)
    ensures CayleyRot(omega)
         == FromEntries((4.0 + omega.x * omega.x - omega.y * omega.y - omega.z * omega.z) * CayleyScale(omega),
                     (omega.x * omega.y - 2.0 * omega.z) * (2.0 * CayleyScale(omega)),
                     (omega.x * omega.z + 2.0 * omega.y) * (2.0 * CayleyScale(omega)),
                     (omega.x * omega.y + 2.0 * omega.z) * (2.0 * CayleyScale(omega)),
                     (4.0 - omega.x * omega.x + omega.y * omega.y - omega.z * omega.z) * CayleyScale(omega),
                     (omega.y * omega.z - 2.0 * omega.x) * (2.0 * CayleyScale(omega)),
                     (omega.x * omega.z - 2.0 * omega.y) * (2.0 * CayleyScale(omega)),
                     (omega.y * omega.z + 2.0 * omega.x) * (2.0 * CayleyScale(omega)),
                     (4.0 - omega.x * omega.x - omega.y * omega.y + omega.z * omega.z) * CayleyScale(omega))
  {
    CayleyWithScaleEntries(omega, CayleyScale(omega));
  }

  lemma ChartColumn1Unit(omega: Point3)
    ensures Dot(CayleyRot(omega).r1, CayleyRot(omega).r1) == 1.0
  {
    CayleyEntries(omega);
    CayleyScaleInverse(omega);
    CayleyColumn1Unit(omega.x, omega.y, omega.z, CayleyScale(omega));
  }

  lemma ChartColumn2Unit(omega: Point3)
    ensures Dot(CayleyRot(omega).r2, CayleyRot(omega).r2) == 1.0
  {
    CayleyEntries(omega);
    CayleyScaleInverse(omega);
    CayleyColumn2Unit(omega.x, omega.y, omega.z, CayleyScale(omega));
  }

  lemma ChartColumn3Unit(omega: Point3)
    ensures Dot(CayleyRot(omega).r3, CayleyRot(omega).r3) == 1.0
  {
    CayleyEntries(omega);
    CayleyScaleInverse(omega);
    CayleyColumn3Unit(omega.x, omega.y, omega.z, CayleyScale(omega));
  }

  lemma ChartColumns12Orthogonal(omega: Point3)
    ensures Dot(CayleyRot(omega).r1, CayleyRot(omega).r2) == 0.0
  {
    CayleyEntries(omega);
    CayleyScaleInverse(omega);
    CayleyColumns12Orthogonal(omega.x, omega.y, omega.z, CayleyScale(omega));
  }

  lemma ChartColumns13Orthogonal(omega: Point3)
    ensures Dot(CayleyRot(omega).r1, CayleyRot(omega).r3) == 0.0
  {
    CayleyEntries(omega);
    CayleyScaleInverse(omega);
    CayleyColumns13Orthogonal(omega.x, omega.y, omega.z, CayleyScale(omega));
  }

  lemma ChartColumns23Orthogonal(omega: Point3)
    ensures Dot(CayleyRot(omega).r2, CayleyRot(omega).r3) == 0.0
  {
    CayleyEntries(omega);
    CayleyScaleInverse(omega);
    CayleyColumns23Orthogonal(omega.x, omega.y, omega.z, CayleyScale(omega));
  }

  lemma ChartDetOne(omega: Point3)
    ensures Det(Matrix(CayleyRot(omega))) == 1.0
  {
    CayleyEntries(omega);
    CayleyScaleInverse(omega);
    CayleyDetOne(omega.x, omega.y, omega.z, CayleyScale(omega));
  }

  /** The rational matrix of the CALEY chart is a rotation for every omega. */
  lemma CayleyIsRotation(omega: Point3)
    ensures IsRotation(CayleyRot(omega))
  {
    ChartColumn1Unit(omega);
    ChartColumn2Unit(omega);
    ChartColumn3Unit(omega);
    ChartColumns12Orthogonal(omega);
    ChartColumns13Orthogonal(omega);
    ChartColumns23Orthogonal(omega);
    ChartDetOne(omega);
  }

  /** The extraction used by localCoordinates in CALEY mode inverts CayleyRot: its
      denominator is 32 / (4 + |omega|^2), never zero, and it returns omega. */
  lemma CayleyRoundTrip(omega: Point3)
    ensures CayleyDenominator(Matrix(CayleyRot(omega)).m00, Matrix(CayleyRot(omega)).m01, Matrix(CayleyRot(omega)).m02,
                              Matrix(CayleyRot(omega)).m10, Matrix(CayleyRot(omega)).m11, Matrix(CayleyRot(omega)).m12,
                              Matrix(CayleyRot(omega)).m20, Matrix(CayleyRot(omega)).m21, Matrix(CayleyRot(omega)).m22) != 0.0
    ensures CayleyCoordinates(Matrix(CayleyRot(omega)).m00, Matrix(CayleyRot(omega)).m01, Matrix(CayleyRot(omega)).m02,
                              Matrix(CayleyRot(omega)).m10, Matrix(CayleyRot(omega)).m11, Matrix(CayleyRot(omega)).m12,
                              Matrix(CayleyRot(omega)).m20, Matrix(CayleyRot(omega)).m21, Matrix(CayleyRot(omega)).m22) == omega
  {
    CayleyEntries(omega);
    CayleyScaleInverse(omega);
    CayleyInverseEntries(omega.x, omega.y, omega.z, CayleyScale(omega));
  }

  /** The round trip on the entries, with the scale q as a plain real. */
  lemma CayleyInverseEntries(x: real, y: real, z: real, q: real)
    requires q * (4.0 + x * x + y * y + z * z) == 1.0
    ensures CayleyDenominator((4.0 + x * x - y * y - z * z) * q, (x * y - 2.0 * z) * (2.0 * q), (x * z + 2.0 * y) * (2.0 * q),
                            (x * y + 2.0 * z) * (2.0 * q), (4.0 - x * x + y * y - z * z) * q, (y * z - 2.0 * x) * (2.0 * q),
                            (x * z - 2.0 * y) * (2.0 * q), (y * z + 2.0 * x) * (2.0 * q), (4.0 - x * x - y * y + z * z) * q) != 0.0
    ensures CayleyCoordinates((4.0 + x * x - y * y - z * z) * q, (x * y - 2.0 * z) * (2.0 * q), (x * z + 2.0 * y) * (2.0 * q),
                            (x * y + 2.0 * z) * (2.0 * q), (4.0 - x * x + y * y - z * z) * q, (y * z - 2.0 * x) * (2.0 * q),
                            (x * z - 2.0 * y) * (2.0 * q), (y * z + 2.0 * x) * (2.0 * q), (4.0 - x * x - y * y + z * z) * q) == Point3(x, y, z)
  {
    CayleyDenominatorValue(x, y, z, q);
    CayleyNumeratorX(x, y, z, q);
    CayleyNumeratorY(x, y, z, q);
    CayleyNumeratorZ(x, y, z, q);
    assert CayleyNumerators((4.0 + x * x - y * y - z * z) * q, (x * y - 2.0 * z) * (2.0 * q), (x * z + 2.0 * y) * (2.0 * q),
                            (x * y + 2.0 * z) * (2.0 * q), (4.0 - x * x + y * y - z * z) * q, (y * z - 2.0 * x) * (2.0 * q),
                            (x * z - 2.0 * y) * (2.0 * q), (y * z + 2.0 * x) * (2.0 * q), (4.0 - x * x - y * y + z * z) * q)
        == Point3(-8.0 * q * x, -8.0 * q * y, -8.0 * q * z);
    CayleyCoordinatesFromParts((4.0 + x * x - y * y - z * z) * q, (x * y - 2.0 * z) * (2.0 * q), (x * z + 2.0 * y) * (2.0 * q),
                            (x * y + 2.0 * z) * (2.0 * q), (4.0 - x * x + y * y - z * z) * q, (y * z - 2.0 * x) * (2.0 * q),
                            (x * z - 2.0 * y) * (2.0 * q), (y * z + 2.0 * x) * (2.0 * q), (4.0 - x * x - y * y + z * z) * q,
                               q, x, y, z);
  }

  // The entries of CayleyRot times t (2I - skew(omega)) minus those of t (2I + skew(omega)),
  // each a multiple of q (4 + |omega|^2) - 1.

  lemma CayleyRelation00(omega: Point3, q: real, t: real)
    ensures Dot3((4.0 + omega.x * omega.x - omega.y * omega.y - omega.z * omega.z) * q, (omega.x * omega.y - 2.0 * omega.z) * (2.0 * q), (omega.x * omega.z + 2.0 * omega.y) * (2.0 * q),
                 ShiftedSkew(2.0 * t, Scale(-t, omega)).m00, ShiftedSkew(2.0 * t, Scale(-t, omega)).m10, ShiftedSkew(2.0 * t, Scale(-t, omega)).m20)
            - ShiftedSkew(2.0 * t, Scale(t, omega)).m00
         == Times(2.0 * t, q * (4.0 + omega.x * omega.x + omega.y * omega.y + omega.z * omega.z) - 1.0)
  {}

  lemma CayleyRelation01(omega: Point3, q: real, t: real)
    ensures Dot3((4.0 + omega.x * omega.x - omega.y * omega.y - omega.z * omega.z) * q, (omega.x * omega.y - 2.0 * omega.z) * (2.0 * q), (omega.x * omega.z + 2.0 * omega.y) * (2.0 * q),
                 ShiftedSkew(2.0 * t, Scale(-t, omega)).m01, ShiftedSkew(2.0 * t, Scale(-t, omega)).m11, ShiftedSkew(2.0 * t, Scale(-t, omega)).m21)
            - ShiftedSkew(2.0 * t, Scale(t, omega)).m01
         == Times(-t * omega.z, q * (4.0 + omega.x * omega.x + omega.y * omega.y + omega.z * omega.z) - 1.0)
  {}

  lemma CayleyRelation02(omega: Point3, q: real, t: real)
    ensures Dot3((4.0 + omega.x * omega.x - omega.y * omega.y - omega.z * omega.z) * q, (omega.x * omega.y - 2.0 * omega.z) * (2.0 * q), (omega.x * omega.z + 2.0 * omega.y) * (2.0 * q),
                 ShiftedSkew(2.0 * t, Scale(-t, omega)).m02, ShiftedSkew(2.0 * t, Scale(-t, omega)).m12, ShiftedSkew(2.0 * t, Scale(-t, omega)).m22)
            - ShiftedSkew(2.0 * t, Scale(t, omega)).m02
         == Times(t * omega.y, q * (4.0 + omega.x * omega.x + omega.y * omega.y + omega.z * omega.z) - 1.0)
  {}

  lemma CayleyRelation10(omega: Point3, q: real, t: real)
    ensures Dot3((omega.x * omega.y + 2.0 * omega.z) * (2.0 * q), (4.0 - omega.x * omega.x + omega.y * omega.y - omega.z * omega.z) * q, (omega.y * omega.z - 2.0 * omega.x) * (2.0 * q),
                 ShiftedSkew(2.0 * t, Scale(-t, omega)).m00, ShiftedSkew(2.0 * t, Scale(-t, omega)).m10, ShiftedSkew(2.0 * t, Scale(-t, omega)).m20)
            - ShiftedSkew(2.0 * t, Scale(t, omega)).m10
         == Times(t * omega.z, q * (4.0 + omega.x * omega.x + omega.y * omega.y + omega.z * omega.z) - 1.0)
  {}

  lemma CayleyRelation11(omega: Point3, q: real, t: real)
    ensures Dot3((omega.x * omega.y + 2.0 * omega.z) * (2.0 * q), (4.0 - omega.x * omega.x + omega.y * omega.y - omega.z * omega.z) * q, (omega.y * omega.z - 2.0 * omega.x) * (2.0 * q),
                 ShiftedSkew(2.0 * t, Scale(-t, omega)).m01, ShiftedSkew(2.0 * t, Scale(-t, omega)).m11, ShiftedSkew(2.0 * t, Scale(-t, omega)).m21)
            - ShiftedSkew(2.0 * t, Scale(t, omega)).m11
         == Times(2.0 * t, q * (4.0 + omega.x * omega.x + omega.y * omega.y + omega.z * omega.z) - 1.0)
  {}

  lemma CayleyRelation12(omega: Point3, q: real, t: real)
    ensures Dot3((omega.x * omega.y + 2.0 * omega.z) * (2.0 * q), (4.0 - omega.x * omega.x + omega.y * omega.y - omega.z * omega.z) * q, (omega.y * omega.z - 2.0 * omega.x) * (2.0 * q),
                 ShiftedSkew(2.0 * t, Scale(-t, omega)).m02, ShiftedSkew(2.0 * t, Scale(-t, omega)).m12, ShiftedSkew(2.0 * t, Scale(-t, omega)).m22)
            - ShiftedSkew(2.0 * t, Scale(t, omega)).m12
         == Times(-t * omega.x, q * (4.0 + omega.x * omega.x + omega.y * omega.y + omega.z * omega.z) - 1.0)
  {}

  lemma CayleyRelation20(omega: Point3, q: real, t: real)
    ensures Dot3((omega.x * omega.z - 2.0 * omega.y) * (2.0 * q), (omega.y * omega.z + 2.0 * omega.x) * (2.0 * q), (4.0 - omega.x * omega.x - omega.y * omega.y + omega.z * omega.z) * q,
                 ShiftedSkew(2.0 * t, Scale(-t, omega)).m00, ShiftedSkew(2.0 * t, Scale(-t, omega)).m10, ShiftedSkew(2.0 * t, Scale(-t, omega)).m20)
            - ShiftedSkew(2.0 * t, Scale(t, omega)).m20
         == Times(-t * omega.y, q * (4.0 + omega.x * omega.x + omega.y * omega.y + omega.z * omega.z) - 1.0)
  {}

  lemma CayleyRelation21(omega: Point3, q: real, t: real)
    ensures Dot3((omega.x * omega.z - 2.0 * omega.y) * (2.0 * q), (omega.y * omega.z + 2.0 * omega.x) * (2.0 * q), (4.0 - omega.x * omega.x - omega.y * omega.y + omega.z * omega.z) * q,
                 ShiftedSkew(2.0 * t, Scale(-t, omega)).m01, ShiftedSkew(2.0 * t, Scale(-t, omega)).m11, ShiftedSkew(2.0 * t, Scale(-t, omega)).m21)
            - ShiftedSkew(2.0 * t, Scale(t, omega)).m21
         == Times(t * omega.x, q * (4.0 + omega.x * omega.x + omega.y * omega.y + omega.z * omega.z) - 1.0)
  {}

  lemma CayleyRelation22(omega: Point3, q: real, t: real)
    ensures Dot3((omega.x * omega.z - 2.0 * omega.y) * (2.0 * q), (omega.y * omega.z + 2.0 * omega.x) * (2.0 * q), (4.0 - omega.x * omega.x - omega.y * omega.y + omega.z * omega.z) * q,
                 ShiftedSkew(2.0 * t, Scale(-t, omega)).m02, ShiftedSkew(2.0 * t, Scale(-t, omega)).m12, ShiftedSkew(2.0 * t, Scale(-t, omega)).m22)
            - ShiftedSkew(2.0 * t, Scale(t, omega)).m22
         == Times(2.0 * t, q * (4.0 + omega.x * omega.x + omega.y * omega.y + omega.z * omega.z) - 1.0)
  {}

  lemma CayleyRelationEntry00(omega: Point3, q: real, t: real, R: Rot3)
    requires q * (4.0 + omega.x * omega.x + omega.y * omega.y + omega.z * omega.z) == 1.0
    requires R == FromEntries((4.0 + omega.x * omega.x - omega.y * omega.y - omega.z * omega.z) * q,
                              (omega.x * omega.y - 2.0 * omega.z) * (2.0 * q),
                              (omega.x * omega.z + 2.0 * omega.y) * (2.0 * q),
                              (omega.x * omega.y + 2.0 * omega.z) * (2.0 * q),
                              (4.0 - omega.x * omega.x + omega.y * omega.y - omega.z * omega.z) * q,
                              (omega.y * omega.z - 2.0 * omega.x) * (2.0 * q),
                              (omega.x * omega.z - 2.0 * omega.y) * (2.0 * q),
                              (omega.y * omega.z + 2.0 * omega.x) * (2.0 * q),
                              (4.0 - omega.x * omega.x - omega.y * omega.y + omega.z * omega.z) * q)
    ensures MatMul(Matrix(R), ShiftedSkew(2.0 * t, Scale(-t, omega))).m00 == ShiftedSkew(2.0 * t, Scale(t, omega)).m00
  {
    CayleyRelation00(omega, q, t);
    TimesZero(2.0 * t, q * (4.0 + omega.x * omega.x + omega.y * omega.y + omega.z * omega.z) - 1.0);
  }

  lemma CayleyRelationEntry01(omega: Point3, q: real, t: real, R: Rot3)
    requires q * (4.0 + omega.x * omega.x + omega.y * omega.y + omega.z * omega.z) == 1.0
    requires R == FromEntries((4.0 + omega.x * omega.x - omega.y * omega.y - omega.z * omega.z) * q,
                              (omega.x * omega.y - 2.0 * omega.z) * (2.0 * q),
                              (omega.x * omega.z + 2.0 * omega.y) * (2.0 * q),
                              (omega.x * omega.y + 2.0 * omega.z) * (2.0 * q),
                              (4.0 - omega.x * omega.x + omega.y * omega.y - omega.z * omega.z) * q,
                              (omega.y * omega.z - 2.0 * omega.x) * (2.0 * q),
                              (omega.x * omega.z - 2.0 * omega.y) * (2.0 * q),
                              (omega.y * omega.z + 2.0 * omega.x) * (2.0 * q),
                              (4.0 - omega.x * omega.x - omega.y * omega.y + omega.z * omega.z) * q)
    ensures MatMul(Matrix(R), ShiftedSkew(2.0 * t, Scale(-t, omega))).m01 == ShiftedSkew(2.0 * t, Scale(t, omega)).m01
  {
    CayleyRelation01(omega, q, t);
    TimesZero(-t * omega.z, q * (4.0 + omega.x * omega.x + omega.y * omega.y + omega.z * omega.z) - 1.0);
  }

  lemma CayleyRelationEntry02(omega: Point3, q: real, t: real, R: Rot3)
    requires q * (4.0 + omega.x * omega.x + omega.y * omega.y + omega.z * omega.z) == 1.0
    requires R == FromEntries((4.0 + omega.x * omega.x - omega.y * omega.y - omega.z * omega.z) * q,
                              (omega.x * omega.y - 2.0 * omega.z) * (2.0 * q),
                              (omega.x * omega.z + 2.0 * omega.y) * (2.0 * q),
                              (omega.x * omega.y + 2.0 * omega.z) * (2.0 * q),
                              (4.0 - omega.x * omega.x + omega.y * omega.y - omega.z * omega.z) * q,
                              (omega.y * omega.z - 2.0 * omega.x) * (2.0 * q),
                              (omega.x * omega.z - 2.0 * omega.y) * (2.0 * q),
                              (omega.y * omega.z + 2.0 * omega.x) * (2.0 * q),
                              (4.0 - omega.x * omega.x - omega.y * omega.y + omega.z * omega.z) * q)
    ensures MatMul(Matrix(R), ShiftedSkew(2.0 * t, Scale(-t, omega))).m02 == ShiftedSkew(2.0 * t, Scale(t, omega)).m02
  {
    CayleyRelation02(omega, q, t);
    TimesZero(t * omega.y, q * (4.0 + omega.x * omega.x + omega.y * omega.y + omega.z * omega.z) - 1.0);
  }

  lemma CayleyRelationEntry10(omega: Point3, q: real, t: real, R: Rot3)
    requires q * (4.0 + omega.x * omega.x + omega.y * omega.y + omega.z * omega.z) == 1.0
    requires R == FromEntries((4.0 + omega.x * omega.x - omega.y * omega.y - omega.z * omega.z) * q,
                              (omega.x * omega.y - 2.0 * omega.z) * (2.0 * q),
                              (omega.x * omega.z + 2.0 * omega.y) * (2.0 * q),
                              (omega.x * omega.y + 2.0 * omega.z) * (2.0 * q),
                              (4.0 - omega.x * omega.x + omega.y * omega.y - omega.z * omega.z) * q,
                              (omega.y * omega.z - 2.0 * omega.x) * (2.0 * q),
                              (omega.x * omega.z - 2.0 * omega.y) * (2.0 * q),
                              (omega.y * omega.z + 2.0 * omega.x) * (2.0 * q),
                              (4.0 - omega.x * omega.x - omega.y * omega.y + omega.z * omega.z) * q)
    ensures MatMul(Matrix(R), ShiftedSkew(2.0 * t, Scale(-t, omega))).m10 == ShiftedSkew(2.0 * t, Scale(t, omega)).m10
  {
    CayleyRelation10(omega, q, t);
    TimesZero(t * omega.z, q * (4.0 + omega.x * omega.x + omega.y * omega.y + omega.z * omega.z) - 1.0);
  }

  lemma CayleyRelationEntry11(omega: Point3, q: real, t: real, R: Rot3)
    requires q * (4.0 + omega.x * omega.x + omega.y * omega.y + omega.z * omega.z) == 1.0
    requires R == FromEntries((4.0 + omega.x * omega.x - omega.y * omega.y - omega.z * omega.z) * q,
                              (omega.x * omega.y - 2.0 * omega.z) * (2.0 * q),
                              (omega.x * omega.z + 2.0 * omega.y) * (2.0 * q),
                              (omega.x * omega.y + 2.0 * omega.z) * (2.0 * q),
                              (4.0 - omega.x * omega.x + omega.y * omega.y - omega.z * omega.z) * q,
                              (omega.y * omega.z - 2.0 * omega.x) * (2.0 * q),
                              (omega.x * omega.z - 2.0 * omega.y) * (2.0 * q),
                              (omega.y * omega.z + 2.0 * omega.x) * (2.0 * q),
                              (4.0 - omega.x * omega.x - omega.y * omega.y + omega.z * omega.z) * q)
    ensures MatMul(Matrix(R), ShiftedSkew(2.0 * t, Scale(-t, omega))).m11 == ShiftedSkew(2.0 * t, Scale(t, omega)).m11
  {
    CayleyRelation11(omega, q, t);
    TimesZero(2.0 * t, q * (4.0 + omega.x * omega.x + omega.y * omega.y + omega.z * omega.z) - 1.0);
  }

  lemma CayleyRelationEntry12(omega: Point3, q: real, t: real, R: Rot3)
    requires q * (4.0 + omega.x * omega.x + omega.y * omega.y + omega.z * omega.z) == 1.0
    requires R == FromEntries((4.0 + omega.x * omega.x - omega.y * omega.y - omega.z * omega.z) * q,
                              (omega.x * omega.y - 2.0 * omega.z) * (2.0 * q),
                              (omega.x * omega.z + 2.0 * omega.y) * (2.0 * q),
                              (omega.x * omega.y + 2.0 * omega.z) * (2.0 * q),
                              (4.0 - omega.x * omega.x + omega.y * omega.y - omega.z * omega.z) * q,
                              (omega.y * omega.z - 2.0 * omega.x) * (2.0 * q),
                              (omega.x * omega.z - 2.0 * omega.y) * (2.0 * q),
                              (omega.y * omega.z + 2.0 * omega.x) * (2.0 * q),
                              (4.0 - omega.x * omega.x - omega.y * omega.y + omega.z * omega.z) * q)
    ensures MatMul(Matrix(R), ShiftedSkew(2.0 * t, Scale(-t, omega))).m12 == ShiftedSkew(2.0 * t, Scale(t, omega)).m12
  {
    CayleyRelation12(omega, q, t);
    TimesZero(-t * omega.x, q * (4.0 + omega.x * omega.x + omega.y * omega.y + omega.z * omega.z) - 1.0);
  }

  lemma CayleyRelationEntry20(omega: Point3, q: real, t: real, R: Rot3)
    requires q * (4.0 + omega.x * omega.x + omega.y * omega.y + omega.z * omega.z) == 1.0
    requires R == FromEntries((4.0 + omega.x * omega.x - omega.y * omega.y - omega.z * omega.z) * q,
                              (omega.x * omega.y - 2.0 * omega.z) * (2.0 * q),
                              (omega.x * omega.z + 2.0 * omega.y) * (2.0 * q),
                              (omega.x * omega.y + 2.0 * omega.z) * (2.0 * q),
                              (4.0 - omega.x * omega.x + omega.y * omega.y - omega.z * omega.z) * q,
                              (omega.y * omega.z - 2.0 * omega.x) * (2.0 * q),
                              (omega.x * omega.z - 2.0 * omega.y) * (2.0 * q),
                              (omega.y * omega.z + 2.0 * omega.x) * (2.0 * q),
                              (4.0 - omega.x * omega.x - omega.y * omega.y + omega.z * omega.z) * q)
    ensures MatMul(Matrix(R), ShiftedSkew(2.0 * t, Scale(-t, omega))).m20 == ShiftedSkew(2.0 * t, Scale(t, omega)).m20
  {
    CayleyRelation20(omega, q, t);
    TimesZero(-t * omega.y, q * (4.0 + omega.x * omega.x + omega.y * omega.y + omega.z * omega.z) - 1.0);
  }

  lemma CayleyRelationEntry21(omega: Point3, q: real, t: real, R: Rot3)
    requires q * (4.0 + omega.x * omega.x + omega.y * omega.y + omega.z * omega.z) == 1.0
    requires R == FromEntries((4.0 + omega.x * omega.x - omega.y * omega.y - omega.z * omega.z) * q,
                              (omega.x * omega.y - 2.0 * omega.z) * (2.0 * q),
                              (omega.x * omega.z + 2.0 * omega.y) * (2.0 * q),
                              (omega.x * omega.y + 2.0 * omega.z) * (2.0 * q),
                              (4.0 - omega.x * omega.x + omega.y * omega.y - omega.z * omega.z) * q,
                              (omega.y * omega.z - 2.0 * omega.x) * (2.0 * q),
                              (omega.x * omega.z - 2.0 * omega.y) * (2.0 * q),
                              (omega.y * omega.z + 2.0 * omega.x) * (2.0 * q),
                              (4.0 - omega.x * omega.x - omega.y * omega.y + omega.z * omega.z) * q)
    ensures MatMul(Matrix(R), ShiftedSkew(2.0 * t, Scale(-t, omega))).m21 == ShiftedSkew(2.0 * t, Scale(t, omega)).m21
  {
    CayleyRelation21(omega, q, t);
    TimesZero(t * omega.x, q * (4.0 + omega.x * omega.x + omega.y * omega.y + omega.z * omega.z) - 1.0);
  }

  lemma CayleyRelationEntry22(omega: Point3, q: real, t: real, R: Rot3)
    requires q * (4.0 + omega.x * omega.x + omega.y * omega.y + omega.z * omega.z) == 1.0
    requires R == FromEntries((4.0 + omega.x * omega.x - omega.y * omega.y - omega.z * omega.z) * q,
                              (omega.x * omega.y - 2.0 * omega.z) * (2.0 * q),
                              (omega.x * omega.z + 2.0 * omega.y) * (2.0 * q),
                              (omega.x * omega.y + 2.0 * omega.z) * (2.0 * q),
                              (4.0 - omega.x * omega.x + omega.y * omega.y - omega.z * omega.z) * q,
                              (omega.y * omega.z - 2.0 * omega.x) * (2.0 * q),
                              (omega.x * omega.z - 2.0 * omega.y) * (2.0 * q),
                              (omega.y * omega.z + 2.0 * omega.x) * (2.0 * q),
                              (4.0 - omega.x * omega.x - omega.y * omega.y + omega.z * omega.z) * q)
    ensures MatMul(Matrix(R), ShiftedSkew(2.0 * t, Scale(-t, omega))).m22 == ShiftedSkew(2.0 * t, Scale(t, omega)).m22
  {
    CayleyRelation22(omega, q, t);
    TimesZero(2.0 * t, q * (4.0 + omega.x * omega.x + omega.y * omega.y + omega.z * omega.z) - 1.0);
  }

  /** A rotation R with the entries of CayleyRot at omega, for a scale q with
      q (4 + |omega|^2) = 1, carries t (2I - skew(omega)) to t (2I + skew(omega)). */
  lemma CayleyRelationEntries(omega: Point3, q: real, t: real, R: Rot3)
    requires q * (4.0 + omega.x * omega.x + omega.y * omega.y + omega.z * omega.z) == 1.0
    requires R == FromEntries((4.0 + omega.x * omega.x - omega.y * omega.y - omega.z * omega.z) * q,
                              (omega.x * omega.y - 2.0 * omega.z) * (2.0 * q),
                              (omega.x * omega.z + 2.0 * omega.y) * (2.0 * q),
                              (omega.x * omega.y + 2.0 * omega.z) * (2.0 * q),
                              (4.0 - omega.x * omega.x + omega.y * omega.y - omega.z * omega.z) * q,
                              (omega.y * omega.z - 2.0 * omega.x) * (2.0 * q),
                              (omega.x * omega.z - 2.0 * omega.y) * (2.0 * q),
                              (omega.y * omega.z + 2.0 * omega.x) * (2.0 * q),
                              (4.0 - omega.x * omega.x - omega.y * omega.y + omega.z * omega.z) * q)
    ensures MatMul(Matrix(R), ShiftedSkew(2.0 * t, Scale(-t, omega))) == ShiftedSkew(2.0 * t, Scale(t, omega))
  {
    CayleyRelationEntry00(omega, q, t, R);
    CayleyRelationEntry01(omega, q, t, R);
    CayleyRelationEntry02(omega, q, t, R);
    CayleyRelationEntry10(omega, q, t, R);
    CayleyRelationEntry11(omega, q, t, R);
    CayleyRelationEntry12(omega, q, t, R);
    CayleyRelationEntry20(omega, q, t, R);
    CayleyRelationEntry21(omega, q, t, R);
    CayleyRelationEntry22(omega, q, t, R);
  }

  /** CayleyRot(omega) is the Cayley transform of skew(omega) / 2: it carries 2I - skew(omega)
      to 2I + skew(omega), here with both sides multiplied by t. */
  lemma CayleyRotRelation(omega: Point3, t: real)
    ensures MatMul(Matrix(CayleyRot(omega)), ShiftedSkew(2.0 * t, Scale(-t, omega)))
         == ShiftedSkew(2.0 * t, Scale(t, omega))
  {
    CayleyEntries(omega);
    CayleyScaleInverse(omega);
    CayleyRelationEntries(omega, CayleyScale(omega), t, CayleyRot(omega));
  }

  /** -2 (m K) with K = 2 / D, times D, is -4 m. */
  lemma ScaledQuotient(D: real, m: real)
    requires D != 0.0
    ensures D * (-2.0 * (m * (2.0 / D))) == -4.0 * m
    ensures -D * (-2.0 * (m * (2.0 / D))) == 4.0 * m
  {
    assert D * (2.0 / D) == 2.0;
  }

  /** The CALEY extraction w of a matrix with denominator D and numerators n satisfies
      D w = -4 n. */
  lemma CayleyCoordinatesScaled(a: real, b: real, c: real, d: real, e: real, f: real,
                                g: real, h: real, i: real)
    requires CayleyDenominator(a, b, c, d, e, f, g, h, i) != 0.0
    ensures Scale(CayleyDenominator(a, b, c, d, e, f, g, h, i), CayleyCoordinates(a, b, c, d, e, f, g, h, i))
         == Scale(-4.0, CayleyNumerators(a, b, c, d, e, f, g, h, i))
    ensures Scale(-CayleyDenominator(a, b, c, d, e, f, g, h, i), CayleyCoordinates(a, b, c, d, e, f, g, h, i))
         == Scale(4.0, CayleyNumerators(a, b, c, d, e, f, g, h, i))
  {
    var D := CayleyDenominator(a, b, c, d, e, f, g, h, i);
    var n := CayleyNumerators(a, b, c, d, e, f, g, h, i);
    ScaledQuotient(D, n.x);
    ScaledQuotient(D, n.y);
    ScaledQuotient(D, n.z);
  }

}
