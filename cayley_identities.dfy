/** The polynomial identities behind the inverse direction of gtsam's CALEY chart
    (gtsam/geometry/Rot3M.cpp): for a matrix A with orthonormal columns and determinant one,
    whose CALEY denominator is D and whose three CALEY numerators are n,

      A (2 D I + 4 skew(n)) = 2 D I - 4 skew(n),

    the polynomial form of A (2I - skew(w)) = 2I + skew(w) for w = -4 n / D.
    Each entry of the difference is a combination of the seven defining equations of SO(3)
    with polynomial multipliers. Every product of a multiplier with an equation is expanded
    in a lemma of its own, so that the entry follows from the expansions by linear
    arithmetic alone. */
module Rot3CayleyIdentities {
  import opened Algebra
  import opened Rot3Charts

  /** The matrix with rows (a, b, c), (d, e, f), (g, h, i) has orthonormal columns and
      determinant one. */
  predicate SpecialOrthogonalEntries(a: real, b: real, c: real, d: real, e: real, f: real, g: real, h: real, i: real) {
    a * a + d * d + g * g == 1.0 && a * b + d * e + g * h == 0.0 && a * c + d * f + g * i == 0.0 &&
    b * b + e * e + h * h == 1.0 && b * c + e * f + h * i == 0.0 && c * c + f * f + i * i == 1.0 &&
    Det3(a, b, c, d, e, f, g, h, i) == 1.0
  }

  // Entry (0, 0).

  lemma Product00a(a: real, b: real, c: real, d: real, e: real, f: real, g: real, h: real, i: real)
    ensures Times(2.0 * e * i - 2.0 * f * h + 2.0 * a * e * i - 2.0 * a * f * h + 4.0 * e * i * i - 4.0 * f * h * i, a * a + d * d + g * g - 1.0) == -2.0 * e * i + 2.0 * f * h - 2.0 * a * e * i + 2.0 * a * f * h - 4.0 * e * i * i + 4.0 * f * h * i + 2.0 * a * a * e * i - 2.0 * a * a * f * h + 2.0 * d * d * e * i - 2.0 * d * d * f * h + 2.0 * e * g * g * i - 2.0 * f * g * g * h + 2.0 * a * d * d * e * i - 2.0 * a * d * d * f * h + 2.0 * a * e * g * g * i - 2.0 * a * f * g * g * h + 4.0 * a * a * e * i * i - 4.0 * a * a * f * h * i + 2.0 * a * a * a * e * i - 2.0 * a * a * a * f * h + 4.0 * d * d * e * i * i - 4.0 * d * d * f * h * i + 4.0 * e * g * g * i * i - 4.0 * f * g * g * h * i
  {}

  lemma Product00b(a: real, b: real, c: real, d: real, e: real, f: real, g: real, h: real, i: real)
    ensures Times(-2.0 * b * i + 2.0 * c * h - 2.0 * d * i + 2.0 * f * g + 2.0 * a * b * i - 2.0 * a * c * h - 2.0 * a * d * i + 2.0 * a * f * g - 4.0 * d * i * i + 4.0 * f * g * i, a * b + d * e + g * h) == 2.0 * a * b * c * h - 2.0 * a * b * d * i + 2.0 * a * b * f * g - 2.0 * a * b * b * i - 2.0 * b * d * e * i - 2.0 * b * g * h * i + 2.0 * c * d * e * h + 2.0 * c * g * h * h + 2.0 * d * e * f * g - 2.0 * d * g * h * i - 2.0 * d * d * e * i + 2.0 * f * g * g * h + 2.0 * a * b * d * e * i - 4.0 * a * b * d * i * i + 4.0 * a * b * f * g * i + 2.0 * a * b * g * h * i - 2.0 * a * c * d * e * h - 2.0 * a * c * g * h * h + 2.0 * a * d * e * f * g - 2.0 * a * d * g * h * i - 2.0 * a * d * d * e * i + 2.0 * a * f * g * g * h - 2.0 * a * a * b * c * h - 2.0 * a * a * b * d * i + 2.0 * a * a * b * f * g + 2.0 * a * a * b * b * i + 4.0 * d * e * f * g * i - 4.0 * d * g * h * i * i - 4.0 * d * d * e * i * i + 4.0 * f * g * g * h * i
  {}

  lemma Product00c(a: real, b: real, c: real, d: real, e: real, f: real, g: real, h: real, i: real)
    ensures Times(-2.0 * b * f + 2.0 * c * e + 2.0 * d * h - 2.0 * e * g - 2.0 * a * b * f + 2.0 * a * c * e + 2.0 * a * d * h - 2.0 * a * e * g + 4.0 * c * e * i - 4.0 * c * f * h + 4.0 * d * h * i - 4.0 * e * g * i, a * c + d * f + g * i) == -2.0 * a * b * c * f + 2.0 * a * c * d * h - 2.0 * a * c * e * g + 2.0 * a * c * c * e - 2.0 * b * d * f * f - 2.0 * b * f * g * i + 2.0 * c * d * e * f + 2.0 * c * e * g * i - 2.0 * d * e * f * g + 2.0 * d * g * h * i + 2.0 * d * d * f * h - 2.0 * e * g * g * i - 2.0 * a * b * d * f * f - 2.0 * a * b * f * g * i + 2.0 * a * c * d * e * f + 4.0 * a * c * d * h * i - 2.0 * a * c * e * g * i + 4.0 * a * c * c * e * i - 4.0 * a * c * c * f * h - 2.0 * a * d * e * f * g + 2.0 * a * d * g * h * i + 2.0 * a * d * d * f * h - 2.0 * a * e * g * g * i - 2.0 * a * a * b * c * f + 2.0 * a * a * c * d * h - 2.0 * a * a * c * e * g + 2.0 * a * a * c * c * e + 4.0 * c * d * e * f * i - 4.0 * c * d * f * f * h + 4.0 * c * e * g * i * i - 4.0 * c * f * g * h * i - 4.0 * d * e * f * g * i + 4.0 * d * g * h * i * i + 4.0 * d * d * f * h * i - 4.0 * e * g * g * i * i
  {}

  lemma Product00d(a: real, b: real, c: real, d: real, e: real, f: real, g: real, h: real, i: real)
    ensures Times(2.0 * a * i - 2.0 * c * g + 2.0 * a * c * g - 2.0 * a * a * i, b * b + e * e + h * h - 1.0) == -2.0 * a * i + 2.0 * c * g - 2.0 * a * c * g + 2.0 * a * a * i + 2.0 * a * b * b * i + 2.0 * a * e * e * i + 2.0 * a * h * h * i - 2.0 * b * b * c * g - 2.0 * c * e * e * g - 2.0 * c * g * h * h + 2.0 * a * b * b * c * g + 2.0 * a * c * e * e * g + 2.0 * a * c * g * h * h - 2.0 * a * a * b * b * i - 2.0 * a * a * e * e * i - 2.0 * a * a * h * h * i
  {}

  lemma Product00e(a: real, b: real, c: real, d: real, e: real, f: real, g: real, h: real, i: real)
    ensures Times(-4.0 * f + 2.0 * a * f - 2.0 * a * h + 2.0 * b * g - 2.0 * c * d - 2.0 * a * b * g - 2.0 * a * c * d + 2.0 * a * a * f + 2.0 * a * a * h - 4.0 * c * d * i + 4.0 * c * f * g, b * c + e * f + h * i) == -4.0 * b * c * f - 4.0 * e * f * f - 4.0 * f * h * i + 2.0 * a * b * c * f - 2.0 * a * b * c * h - 2.0 * a * e * f * h + 2.0 * a * e * f * f + 2.0 * a * f * h * i - 2.0 * a * h * h * i - 2.0 * b * c * c * d + 2.0 * b * e * f * g + 2.0 * b * g * h * i + 2.0 * b * b * c * g - 2.0 * c * d * e * f - 2.0 * c * d * h * i - 2.0 * a * b * c * c * d - 2.0 * a * b * e * f * g - 2.0 * a * b * g * h * i - 2.0 * a * b * b * c * g - 2.0 * a * c * d * e * f - 2.0 * a * c * d * h * i + 2.0 * a * a * b * c * f + 2.0 * a * a * b * c * h + 2.0 * a * a * e * f * h + 2.0 * a * a * e * f * f + 2.0 * a * a * f * h * i + 2.0 * a * a * h * h * i - 4.0 * b * c * c * d * i + 4.0 * b * c * c * f * g - 4.0 * c * d * e * f * i - 4.0 * c * d * h * i * i + 4.0 * c * e * f * f * g + 4.0 * c * f * g * h * i
  {}

  lemma Product00f(a: real, b: real, c: real, d: real, e: real, f: real, g: real, h: real, i: real)
    ensures Times(4.0 * e - 2.0 * a * e + 2.0 * b * d + 2.0 * a * b * d - 2.0 * a * a * e + 4.0 * c * d * h - 4.0 * c * e * g, c * c + f * f + i * i - 1.0) == -4.0 * e + 2.0 * a * e - 2.0 * b * d - 2.0 * a * b * d + 2.0 * a * a * e - 4.0 * c * d * h + 4.0 * c * e * g + 4.0 * c * c * e + 4.0 * e * f * f + 4.0 * e * i * i - 2.0 * a * c * c * e - 2.0 * a * e * f * f - 2.0 * a * e * i * i + 2.0 * b * c * c * d + 2.0 * b * d * f * f + 2.0 * b * d * i * i + 2.0 * a * b * c * c * d + 2.0 * a * b * d * f * f + 2.0 * a * b * d * i * i - 2.0 * a * a * c * c * e - 2.0 * a * a * e * f * f - 2.0 * a * a * e * i * i + 4.0 * c * d * f * f * h + 4.0 * c * d * h * i * i - 4.0 * c * e * f * f * g - 4.0 * c * e * g * i * i + 4.0 * c * c * c * d * h - 4.0 * c * c * c * e * g
  {}

  lemma Product00g(a: real, b: real, c: real, d: real, e: real, f: real, g: real, h: real, i: real)
    ensures Times(2.0 - 2.0 * e + 2.0 * i + 2.0 * a * e - 2.0 * a * i - 2.0 * a * a - 4.0 * c * c, a * (e * i - f * h) - b * (d * i - f * g) + c * (d * h - e * g) - 1.0) == -2.0 + 2.0 * e - 2.0 * i - 2.0 * a * e + 2.0 * a * i + 2.0 * a * a + 4.0 * c * c + 2.0 * a * e * i - 2.0 * a * f * h - 2.0 * b * d * i + 2.0 * b * f * g + 2.0 * c * d * h - 2.0 * c * e * g + 2.0 * a * e * f * h + 2.0 * a * e * i * i - 2.0 * a * e * e * i - 2.0 * a * f * h * i + 2.0 * b * d * e * i - 2.0 * b * d * i * i - 2.0 * b * e * f * g + 2.0 * b * f * g * i - 2.0 * c * d * e * h + 2.0 * c * d * h * i - 2.0 * c * e * g * i + 2.0 * c * e * e * g - 2.0 * a * b * d * e * i + 2.0 * a * b * d * i * i + 2.0 * a * b * e * f * g - 2.0 * a * b * f * g * i + 2.0 * a * c * d * e * h - 2.0 * a * c * d * h * i + 2.0 * a * c * e * g * i - 2.0 * a * c * e * e * g - 4.0 * a * c * c * e * i + 4.0 * a * c * c * f * h + 2.0 * a * a * b * d * i - 2.0 * a * a * b * f * g - 2.0 * a * a * c * d * h + 2.0 * a * a * c * e * g - 2.0 * a * a * e * f * h - 2.0 * a * a * e * i * i + 2.0 * a * a * e * e * i + 2.0 * a * a * f * h * i - 2.0 * a * a * a * e * i + 2.0 * a * a * a * f * h + 4.0 * b * c * c * d * i - 4.0 * b * c * c * f * g - 4.0 * c * c * c * d * h + 4.0 * c * c * c * e * g
  {}

  /** Entry (0, 0) of A (2 D I + 4 skew(n)) - (2 D I - 4 skew(n)), expanded, vanishes on SO(3). */
  lemma RotationCayleyEntry00(a: real, b: real, c: real, d: real, e: real, f: real, g: real, h: real, i: real)
    requires SpecialOrthogonalEntries(a, b, c, d, e, f, g, h, i)
    ensures -2.0 - 2.0 * e - 2.0 * i + 2.0 * a * a - 2.0 * b * d + 2.0 * c * g + 4.0 * c * c - 2.0 * e * i + 2.0 * f * h - 2.0 * a * b * d - 2.0 * a * c * g + 2.0 * a * a * e + 2.0 * a * a * i - 4.0 * b * c * f - 2.0 * b * d * i + 2.0 * b * f * g - 2.0 * c * d * h + 2.0 * c * e * g + 4.0 * c * c * e - 2.0 * a * b * d * i + 2.0 * a * b * f * g + 2.0 * a * c * d * h - 2.0 * a * c * e * g + 2.0 * a * a * e * i - 2.0 * a * a * f * h == 0.0
  {
    Product00a(a, b, c, d, e, f, g, h, i);
    TimesZero(2.0 * e * i - 2.0 * f * h + 2.0 * a * e * i - 2.0 * a * f * h + 4.0 * e * i * i - 4.0 * f * h * i, a * a + d * d + g * g - 1.0);
    Product00b(a, b, c, d, e, f, g, h, i);
    TimesZero(-2.0 * b * i + 2.0 * c * h - 2.0 * d * i + 2.0 * f * g + 2.0 * a * b * i - 2.0 * a * c * h - 2.0 * a * d * i + 2.0 * a * f * g - 4.0 * d * i * i + 4.0 * f * g * i, a * b + d * e + g * h);
    Product00c(a, b, c, d, e, f, g, h, i);
    TimesZero(-2.0 * b * f + 2.0 * c * e + 2.0 * d * h - 2.0 * e * g - 2.0 * a * b * f + 2.0 * a * c * e + 2.0 * a * d * h - 2.0 * a * e * g + 4.0 * c * e * i - 4.0 * c * f * h + 4.0 * d * h * i - 4.0 * e * g * i, a * c + d * f + g * i);
    Product00d(a, b, c, d, e, f, g, h, i);
    TimesZero(2.0 * a * i - 2.0 * c * g + 2.0 * a * c * g - 2.0 * a * a * i, b * b + e * e + h * h - 1.0);
    Product00e(a, b, c, d, e, f, g, h, i);
    TimesZero(-4.0 * f + 2.0 * a * f - 2.0 * a * h + 2.0 * b * g - 2.0 * c * d - 2.0 * a * b * g - 2.0 * a * c * d + 2.0 * a * a * f + 2.0 * a * a * h - 4.0 * c * d * i + 4.0 * c * f * g, b * c + e * f + h * i);
    Product00f(a, b, c, d, e, f, g, h, i);
    TimesZero(4.0 * e - 2.0 * a * e + 2.0 * b * d + 2.0 * a * b * d - 2.0 * a * a * e + 4.0 * c * d * h - 4.0 * c * e * g, c * c + f * f + i * i - 1.0);
    Product00g(a, b, c, d, e, f, g, h, i);
    TimesZero(2.0 - 2.0 * e + 2.0 * i + 2.0 * a * e - 2.0 * a * i - 2.0 * a * a - 4.0 * c * c, a * (e * i - f * h) - b * (d * i - f * g) + c * (d * h - e * g) - 1.0);
  }

  /** Entry (0, 0) of A (2 D I + 4 skew(n)) - (2 D I - 4 skew(n)) as a polynomial in the
      entries of A. */
  lemma CayleyRelationPolynomial00(a: real, b: real, c: real, d: real, e: real, f: real, g: real, h: real, i: real)
    ensures Dot3(a, b, c,
                 ShiftedSkew(2.0 * CayleyDenominator(a, b, c, d, e, f, g, h, i), Scale(4.0, CayleyNumerators(a, b, c, d, e, f, g, h, i))).m00,
                 ShiftedSkew(2.0 * CayleyDenominator(a, b, c, d, e, f, g, h, i), Scale(4.0, CayleyNumerators(a, b, c, d, e, f, g, h, i))).m10,
                 ShiftedSkew(2.0 * CayleyDenominator(a, b, c, d, e, f, g, h, i), Scale(4.0, CayleyNumerators(a, b, c, d, e, f, g, h, i))).m20)
            - ShiftedSkew(2.0 * CayleyDenominator(a, b, c, d, e, f, g, h, i), Scale(-4.0, CayleyNumerators(a, b, c, d, e, f, g, h, i))).m00
         == -2.0 - 2.0 * e - 2.0 * i + 2.0 * a * a - 2.0 * b * d + 2.0 * c * g + 4.0 * c * c - 2.0 * e * i + 2.0 * f * h - 2.0 * a * b * d - 2.0 * a * c * g + 2.0 * a * a * e + 2.0 * a * a * i - 4.0 * b * c * f - 2.0 * b * d * i + 2.0 * b * f * g - 2.0 * c * d * h + 2.0 * c * e * g + 4.0 * c * c * e - 2.0 * a * b * d * i + 2.0 * a * b * f * g + 2.0 * a * c * d * h - 2.0 * a * c * e * g + 2.0 * a * a * e * i - 2.0 * a * a * f * h
  {}

  /** Entry (0, 0) of A (2 D I + 4 skew(n)) - (2 D I - 4 skew(n)), expanded. */
  lemma ExpandCayleyRelation00(A: Mat3)
    ensures MatMul(A, ShiftedSkew(2.0 * CayleyDenominator(A.m00, A.m01, A.m02, A.m10, A.m11, A.m12, A.m20, A.m21, A.m22), Scale(4.0, CayleyNumerators(A.m00, A.m01, A.m02, A.m10, A.m11, A.m12, A.m20, A.m21, A.m22)))).m00
            - ShiftedSkew(2.0 * CayleyDenominator(A.m00, A.m01, A.m02, A.m10, A.m11, A.m12, A.m20, A.m21, A.m22), Scale(-4.0, CayleyNumerators(A.m00, A.m01, A.m02, A.m10, A.m11, A.m12, A.m20, A.m21, A.m22))).m00
            == -2.0 - 2.0 * A.m11 - 2.0 * A.m22 + 2.0 * A.m00 * A.m00 - 2.0 * A.m01 * A.m10 + 2.0 * A.m02 * A.m20 + 4.0 * A.m02 * A.m02 - 2.0 * A.m11 * A.m22 + 2.0 * A.m12 * A.m21 - 2.0 * A.m00 * A.m01 * A.m10 - 2.0 * A.m00 * A.m02 * A.m20 + 2.0 * A.m00 * A.m00 * A.m11 + 2.0 * A.m00 * A.m00 * A.m22 - 4.0 * A.m01 * A.m02 * A.m12 - 2.0 * A.m01 * A.m10 * A.m22 + 2.0 * A.m01 * A.m12 * A.m20 - 2.0 * A.m02 * A.m10 * A.m21 + 2.0 * A.m02 * A.m11 * A.m20 + 4.0 * A.m02 * A.m02 * A.m11 - 2.0 * A.m00 * A.m01 * A.m10 * A.m22 + 2.0 * A.m00 * A.m01 * A.m12 * A.m20 + 2.0 * A.m00 * A.m02 * A.m10 * A.m21 - 2.0 * A.m00 * A.m02 * A.m11 * A.m20 + 2.0 * A.m00 * A.m00 * A.m11 * A.m22 - 2.0 * A.m00 * A.m00 * A.m12 * A.m21
  {
    CayleyRelationPolynomial00(A.m00, A.m01, A.m02, A.m10, A.m11, A.m12, A.m20, A.m21, A.m22);
  }

  // Entry (0, 1).

  lemma Product01a(a: real, b: real, c: real, d: real, e: real, f: real, g: real, h: real, i: real)
    ensures Times(-4.0 * a * b * i + 4.0 * a * c * h - 2.0 * b * e * i + 2.0 * b * f * h, a * a + d * d + g * g - 1.0) == 4.0 * a * b * i - 4.0 * a * c * h + 2.0 * b * e * i - 2.0 * b * f * h - 4.0 * a * b * d * d * i - 4.0 * a * b * g * g * i + 4.0 * a * c * d * d * h + 4.0 * a * c * g * g * h - 2.0 * a * a * b * e * i + 2.0 * a * a * b * f * h - 4.0 * a * a * a * b * i + 4.0 * a * a * a * c * h - 2.0 * b * d * d * e * i + 2.0 * b * d * d * f * h - 2.0 * b * e * g * g * i + 2.0 * b * f * g * g * h
  {}

  lemma Product01b(a: real, b: real, c: real, d: real, e: real, f: real, g: real, h: real, i: real)
    ensures Times(4.0 * e * i - 4.0 * f * h - 4.0 * a * c * g + 4.0 * a * e * i - 4.0 * a * f * h + 4.0 * a * a * i + 2.0 * b * c * h + 2.0 * b * d * i - 2.0 * b * f * g - 2.0 * b * b * i + 4.0 * e * i * i - 4.0 * f * h * i, a * b + d * e + g * h) == 4.0 * a * b * e * i - 4.0 * a * b * f * h - 4.0 * d * e * f * h + 4.0 * d * e * e * i + 4.0 * e * g * h * i - 4.0 * f * g * h * h + 4.0 * a * b * e * i * i - 4.0 * a * b * f * h * i + 2.0 * a * b * b * c * h + 2.0 * a * b * b * d * i - 2.0 * a * b * b * f * g - 2.0 * a * b * b * b * i - 4.0 * a * c * d * e * g - 4.0 * a * c * g * g * h - 4.0 * a * d * e * f * h + 4.0 * a * d * e * e * i + 4.0 * a * e * g * h * i - 4.0 * a * f * g * h * h - 4.0 * a * a * b * c * g + 4.0 * a * a * b * e * i - 4.0 * a * a * b * f * h + 4.0 * a * a * d * e * i + 4.0 * a * a * g * h * i + 4.0 * a * a * a * b * i + 2.0 * b * c * d * e * h + 2.0 * b * c * g * h * h - 2.0 * b * d * e * f * g + 2.0 * b * d * g * h * i + 2.0 * b * d * d * e * i - 2.0 * b * f * g * g * h - 2.0 * b * b * d * e * i - 2.0 * b * b * g * h * i - 4.0 * d * e * f * h * i + 4.0 * d * e * e * i * i + 4.0 * e * g * h * i * i - 4.0 * f * g * h * h * i
  {}

  lemma Product01c(a: real, b: real, c: real, d: real, e: real, f: real, g: real, h: real, i: real)
    ensures Times(4.0 * a * b * g - 4.0 * a * a * h - 2.0 * b * c * e - 4.0 * b * c * i - 2.0 * b * d * h + 2.0 * b * e * g + 2.0 * b * b * f + 4.0 * c * c * h - 4.0 * e * h * i + 4.0 * f * h * h, a * c + d * f + g * i) == -2.0 * a * b * c * d * h + 2.0 * a * b * c * e * g - 2.0 * a * b * c * c * e - 4.0 * a * b * c * c * i + 4.0 * a * b * d * f * g + 4.0 * a * b * g * g * i + 2.0 * a * b * b * c * f - 4.0 * a * c * e * h * i + 4.0 * a * c * f * h * h + 4.0 * a * c * c * c * h + 4.0 * a * a * b * c * g - 4.0 * a * a * d * f * h - 4.0 * a * a * g * h * i - 4.0 * a * a * a * c * h - 2.0 * b * c * d * e * f - 4.0 * b * c * d * f * i - 2.0 * b * c * e * g * i - 4.0 * b * c * g * i * i + 2.0 * b * d * e * f * g - 2.0 * b * d * g * h * i - 2.0 * b * d * d * f * h + 2.0 * b * e * g * g * i + 2.0 * b * b * d * f * f + 2.0 * b * b * f * g * i + 4.0 * c * c * d * f * h + 4.0 * c * c * g * h * i - 4.0 * d * e * f * h * i + 4.0 * d * f * f * h * h - 4.0 * e * g * h * i * i + 4.0 * f * g * h * h * i
  {}

  lemma Product01d(a: real, b: real, c: real, d: real, e: real, f: real, g: real, h: real, i: real)
    ensures Times(-4.0 * d * i + 4.0 * f * g + 2.0 * a * b * i - 4.0 * a * c * f - 4.0 * a * d * i + 4.0 * a * f * g - 2.0 * b * c * g - 4.0 * d * f * f - 4.0 * d * i * i, b * b + e * e + h * h - 1.0) == 4.0 * d * i - 4.0 * f * g - 2.0 * a * b * i + 4.0 * a * c * f + 4.0 * a * d * i - 4.0 * a * f * g + 2.0 * b * c * g + 4.0 * d * f * f + 4.0 * d * i * i - 4.0 * b * b * d * i + 4.0 * b * b * f * g - 4.0 * d * e * e * i - 4.0 * d * h * h * i + 4.0 * e * e * f * g + 4.0 * f * g * h * h + 2.0 * a * b * e * e * i + 2.0 * a * b * h * h * i - 4.0 * a * b * b * c * f - 4.0 * a * b * b * d * i + 4.0 * a * b * b * f * g + 2.0 * a * b * b * b * i - 4.0 * a * c * e * e * f - 4.0 * a * c * f * h * h - 4.0 * a * d * e * e * i - 4.0 * a * d * h * h * i + 4.0 * a * e * e * f * g + 4.0 * a * f * g * h * h - 2.0 * b * c * e * e * g - 2.0 * b * c * g * h * h - 4.0 * b * b * d * f * f - 4.0 * b * b * d * i * i - 2.0 * b * b * b * c * g - 4.0 * d * e * e * f * f - 4.0 * d * e * e * i * i - 4.0 * d * f * f * h * h - 4.0 * d * h * h * i * i
  {}

  lemma Product01e(a: real, b: real, c: real, d: real, e: real, f: real, g: real, h: real, i: real)
    ensures Times(4.0 * d * h - 4.0 * e * g + 2.0 * a * b * f - 2.0 * a * b * h + 4.0 * a * c * e + 4.0 * a * c * i + 4.0 * a * d * h - 4.0 * a * e * g - 2.0 * b * c * d + 2.0 * b * b * g - 4.0 * c * c * g + 4.0 * d * e * f + 4.0 * d * h * i, b * c + e * f + h * i) == 4.0 * b * c * d * h - 4.0 * b * c * e * g + 4.0 * d * e * f * h + 4.0 * d * h * h * i - 4.0 * e * g * h * i - 4.0 * e * e * f * g + 4.0 * a * b * c * d * h - 4.0 * a * b * c * e * g + 4.0 * a * b * c * c * e + 4.0 * a * b * c * c * i - 2.0 * a * b * e * f * h + 2.0 * a * b * e * f * f + 2.0 * a * b * f * h * i - 2.0 * a * b * h * h * i + 2.0 * a * b * b * c * f - 2.0 * a * b * b * c * h + 4.0 * a * c * e * f * i + 4.0 * a * c * e * h * i + 4.0 * a * c * e * e * f + 4.0 * a * c * h * i * i + 4.0 * a * d * e * f * h + 4.0 * a * d * h * h * i - 4.0 * a * e * g * h * i - 4.0 * a * e * e * f * g + 2.0 * b * c * d * e * f + 2.0 * b * c * d * h * i - 4.0 * b * c * c * c * g - 2.0 * b * b * c * c * d + 2.0 * b * b * e * f * g + 2.0 * b * b * g * h * i + 2.0 * b * b * b * c * g - 4.0 * c * c * e * f * g - 4.0 * c * c * g * h * i + 8.0 * d * e * f * h * i + 4.0 * d * e * e * f * f + 4.0 * d * h * h * i * i
  {}

  lemma Product01f(a: real, b: real, c: real, d: real, e: real, f: real, g: real, h: real, i: real)
    ensures Times(-4.0 * d - 2.0 * a * b * e - 4.0 * a * c * h + 4.0 * b * c * g + 2.0 * b * b * d, c * c + f * f + i * i - 1.0) == 4.0 * d + 2.0 * a * b * e + 4.0 * a * c * h - 4.0 * b * c * g - 2.0 * b * b * d - 4.0 * c * c * d - 4.0 * d * f * f - 4.0 * d * i * i - 2.0 * a * b * c * c * e - 2.0 * a * b * e * f * f - 2.0 * a * b * e * i * i - 4.0 * a * c * f * f * h - 4.0 * a * c * h * i * i - 4.0 * a * c * c * c * h + 4.0 * b * c * f * f * g + 4.0 * b * c * g * i * i + 4.0 * b * c * c * c * g + 2.0 * b * b * c * c * d + 2.0 * b * b * d * f * f + 2.0 * b * b * d * i * i
  {}

  lemma Product01g(a: real, b: real, c: real, d: real, e: real, f: real, g: real, h: real, i: real)
    ensures Times(-2.0 * b - 2.0 * a * b - 4.0 * a * d - 2.0 * b * e - 2.0 * b * i - 4.0 * c * f, a * (e * i - f * h) - b * (d * i - f * g) + c * (d * h - e * g) - 1.0) == 2.0 * b + 2.0 * a * b + 4.0 * a * d + 2.0 * b * e + 2.0 * b * i + 4.0 * c * f - 2.0 * a * b * e * i + 2.0 * a * b * f * h - 2.0 * b * c * d * h + 2.0 * b * c * e * g + 2.0 * b * b * d * i - 2.0 * b * b * f * g - 2.0 * a * b * c * d * h + 2.0 * a * b * c * e * g - 4.0 * a * b * d * f * g + 4.0 * a * b * d * d * i + 2.0 * a * b * e * f * h - 2.0 * a * b * e * i * i - 2.0 * a * b * e * e * i + 2.0 * a * b * f * h * i + 2.0 * a * b * b * d * i - 2.0 * a * b * b * f * g + 4.0 * a * c * d * e * g - 4.0 * a * c * d * d * h - 4.0 * a * c * e * f * i + 4.0 * a * c * f * f * h - 2.0 * a * a * b * e * i + 2.0 * a * a * b * f * h - 4.0 * a * a * d * e * i + 4.0 * a * a * d * f * h - 2.0 * b * c * d * e * h + 4.0 * b * c * d * f * i - 2.0 * b * c * d * h * i + 2.0 * b * c * e * g * i + 2.0 * b * c * e * e * g - 4.0 * b * c * f * f * g + 2.0 * b * b * d * e * i + 2.0 * b * b * d * i * i - 2.0 * b * b * e * f * g - 2.0 * b * b * f * g * i - 4.0 * c * c * d * f * h + 4.0 * c * c * e * f * g
  {}

  /** Entry (0, 1) of A (2 D I + 4 skew(n)) - (2 D I - 4 skew(n)), expanded, vanishes on SO(3). */
  lemma RotationCayleyEntry01(a: real, b: real, c: real, d: real, e: real, f: real, g: real, h: real, i: real)
    requires SpecialOrthogonalEntries(a, b, c, d, e, f, g, h, i)
    ensures 2.0 * b + 4.0 * d + 2.0 * a * b + 4.0 * a * d + 2.0 * b * e + 2.0 * b * i + 4.0 * c * f + 4.0 * d * i - 4.0 * f * g + 2.0 * a * b * e + 2.0 * a * b * i + 4.0 * a * c * f + 4.0 * a * d * i - 4.0 * a * f * g - 2.0 * b * c * g + 2.0 * b * e * i - 2.0 * b * f * h - 2.0 * b * b * d - 4.0 * c * c * d + 2.0 * a * b * e * i - 2.0 * a * b * f * h + 2.0 * b * c * d * h - 2.0 * b * c * e * g - 2.0 * b * b * d * i + 2.0 * b * b * f * g == 0.0
  {
    Product01a(a, b, c, d, e, f, g, h, i);
    TimesZero(-4.0 * a * b * i + 4.0 * a * c * h - 2.0 * b * e * i + 2.0 * b * f * h, a * a + d * d + g * g - 1.0);
    Product01b(a, b, c, d, e, f, g, h, i);
    TimesZero(4.0 * e * i - 4.0 * f * h - 4.0 * a * c * g + 4.0 * a * e * i - 4.0 * a * f * h + 4.0 * a * a * i + 2.0 * b * c * h + 2.0 * b * d * i - 2.0 * b * f * g - 2.0 * b * b * i + 4.0 * e * i * i - 4.0 * f * h * i, a * b + d * e + g * h);
    Product01c(a, b, c, d, e, f, g, h, i);
    TimesZero(4.0 * a * b * g - 4.0 * a * a * h - 2.0 * b * c * e - 4.0 * b * c * i - 2.0 * b * d * h + 2.0 * b * e * g + 2.0 * b * b * f + 4.0 * c * c * h - 4.0 * e * h * i + 4.0 * f * h * h, a * c + d * f + g * i);
    Product01d(a, b, c, d, e, f, g, h, i);
    TimesZero(-4.0 * d * i + 4.0 * f * g + 2.0 * a * b * i - 4.0 * a * c * f - 4.0 * a * d * i + 4.0 * a * f * g - 2.0 * b * c * g - 4.0 * d * f * f - 4.0 * d * i * i, b * b + e * e + h * h - 1.0);
    Product01e(a, b, c, d, e, f, g, h, i);
    TimesZero(4.0 * d * h - 4.0 * e * g + 2.0 * a * b * f - 2.0 * a * b * h + 4.0 * a * c * e + 4.0 * a * c * i + 4.0 * a * d * h - 4.0 * a * e * g - 2.0 * b * c * d + 2.0 * b * b * g - 4.0 * c * c * g + 4.0 * d * e * f + 4.0 * d * h * i, b * c + e * f + h * i);
    Product01f(a, b, c, d, e, f, g, h, i);
    TimesZero(-4.0 * d - 2.0 * a * b * e - 4.0 * a * c * h + 4.0 * b * c * g + 2.0 * b * b * d, c * c + f * f + i * i - 1.0);
    Product01g(a, b, c, d, e, f, g, h, i);
    TimesZero(-2.0 * b - 2.0 * a * b - 4.0 * a * d - 2.0 * b * e - 2.0 * b * i - 4.0 * c * f, a * (e * i - f * h) - b * (d * i - f * g) + c * (d * h - e * g) - 1.0);
  }

  /** Entry (0, 1) of A (2 D I + 4 skew(n)) - (2 D I - 4 skew(n)) as a polynomial in the
      entries of A. */
  lemma CayleyRelationPolynomial01(a: real, b: real, c: real, d: real, e: real, f: real, g: real, h: real, i: real)
    ensures Dot3(a, b, c,
                 ShiftedSkew(2.0 * CayleyDenominator(a, b, c, d, e, f, g, h, i), Scale(4.0, CayleyNumerators(a, b, c, d, e, f, g, h, i))).m01,
                 ShiftedSkew(2.0 * CayleyDenominator(a, b, c, d, e, f, g, h, i), Scale(4.0, CayleyNumerators(a, b, c, d, e, f, g, h, i))).m11,
                 ShiftedSkew(2.0 * CayleyDenominator(a, b, c, d, e, f, g, h, i), Scale(4.0, CayleyNumerators(a, b, c, d, e, f, g, h, i))).m21)
            - ShiftedSkew(2.0 * CayleyDenominator(a, b, c, d, e, f, g, h, i), Scale(-4.0, CayleyNumerators(a, b, c, d, e, f, g, h, i))).m01
         == 2.0 * b + 4.0 * d + 2.0 * a * b + 4.0 * a * d + 2.0 * b * e + 2.0 * b * i + 4.0 * c * f + 4.0 * d * i - 4.0 * f * g + 2.0 * a * b * e + 2.0 * a * b * i + 4.0 * a * c * f + 4.0 * a * d * i - 4.0 * a * f * g - 2.0 * b * c * g + 2.0 * b * e * i - 2.0 * b * f * h - 2.0 * b * b * d - 4.0 * c * c * d + 2.0 * a * b * e * i - 2.0 * a * b * f * h + 2.0 * b * c * d * h - 2.0 * b * c * e * g - 2.0 * b * b * d * i + 2.0 * b * b * f * g
  {}

  /** Entry (0, 1) of A (2 D I + 4 skew(n)) - (2 D I - 4 skew(n)), expanded. */
  lemma ExpandCayleyRelation01(A: Mat3)
    ensures MatMul(A, ShiftedSkew(2.0 * CayleyDenominator(A.m00, A.m01, A.m02, A.m10, A.m11, A.m12, A.m20, A.m21, A.m22), Scale(4.0, CayleyNumerators(A.m00, A.m01, A.m02, A.m10, A.m11, A.m12, A.m20, A.m21, A.m22)))).m01
            - ShiftedSkew(2.0 * CayleyDenominator(A.m00, A.m01, A.m02, A.m10, A.m11, A.m12, A.m20, A.m21, A.m22), Scale(-4.0, CayleyNumerators(A.m00, A.m01, A.m02, A.m10, A.m11, A.m12, A.m20, A.m21, A.m22))).m01
            == 2.0 * A.m01 + 4.0 * A.m10 + 2.0 * A.m00 * A.m01 + 4.0 * A.m00 * A.m10 + 2.0 * A.m01 * A.m11 + 2.0 * A.m01 * A.m22 + 4.0 * A.m02 * A.m12 + 4.0 * A.m10 * A.m22 - 4.0 * A.m12 * A.m20 + 2.0 * A.m00 * A.m01 * A.m11 + 2.0 * A.m00 * A.m01 * A.m22 + 4.0 * A.m00 * A.m02 * A.m12 + 4.0 * A.m00 * A.m10 * A.m22 - 4.0 * A.m00 * A.m12 * A.m20 - 2.0 * A.m01 * A.m02 * A.m20 + 2.0 * A.m01 * A.m11 * A.m22 - 2.0 * A.m01 * A.m12 * A.m21 - 2.0 * A.m01 * A.m01 * A.m10 - 4.0 * A.m02 * A.m02 * A.m10 + 2.0 * A.m00 * A.m01 * A.m11 * A.m22 - 2.0 * A.m00 * A.m01 * A.m12 * A.m21 + 2.0 * A.m01 * A.m02 * A.m10 * A.m21 - 2.0 * A.m01 * A.m02 * A.m11 * A.m20 - 2.0 * A.m01 * A.m01 * A.m10 * A.m22 + 2.0 * A.m01 * A.m01 * A.m12 * A.m20
  {
    CayleyRelationPolynomial01(A.m00, A.m01, A.m02, A.m10, A.m11, A.m12, A.m20, A.m21, A.m22);
  }

  // Entry (0, 2).

  lemma Product02a(a: real, b: real, c: real, d: real, e: real, f: real, g: real, h: real, i: real)
    ensures Times(-2.0 * b * f + 2.0 * c * e - 2.0 * c * e * i + 2.0 * c * f * h, a * a + d * d + g * g - 1.0) == 2.0 * b * f - 2.0 * c * e + 2.0 * c * e * i - 2.0 * c * f * h - 2.0 * a * a * b * f + 2.0 * a * a * c * e - 2.0 * b * d * d * f - 2.0 * b * f * g * g + 2.0 * c * d * d * e + 2.0 * c * e * g * g - 2.0 * a * a * c * e * i + 2.0 * a * a * c * f * h - 2.0 * c * d * d * e * i + 2.0 * c * d * d * f * h - 2.0 * c * e * g * g * i + 2.0 * c * f * g * g * h
  {}

  lemma Product02b(a: real, b: real, c: real, d: real, e: real, f: real, g: real, h: real, i: real)
    ensures Times(2.0 * a * f - 2.0 * c * d + 2.0 * b * c * i + 2.0 * c * d * i - 2.0 * c * f * g + 2.0 * f * f * h + 2.0 * h * i * i, a * b + d * e + g * h) == -2.0 * a * b * c * d + 2.0 * a * d * e * f + 2.0 * a * f * g * h + 2.0 * a * a * b * f - 2.0 * c * d * g * h - 2.0 * c * d * d * e + 2.0 * a * b * c * d * i - 2.0 * a * b * c * f * g + 2.0 * a * b * f * f * h + 2.0 * a * b * h * i * i + 2.0 * a * b * b * c * i + 2.0 * b * c * d * e * i + 2.0 * b * c * g * h * i - 2.0 * c * d * e * f * g + 2.0 * c * d * g * h * i + 2.0 * c * d * d * e * i - 2.0 * c * f * g * g * h + 2.0 * d * e * f * f * h + 2.0 * d * e * h * i * i + 2.0 * f * f * g * h * h + 2.0 * g * h * h * i * i
  {}

  lemma Product02c(a: real, b: real, c: real, d: real, e: real, f: real, g: real, h: real, i: real)
    ensures Times(2.0 * i - 2.0 * a * e + 2.0 * b * d + 2.0 * b * c * f - 2.0 * b * c * h - 2.0 * c * d * h + 2.0 * c * e * g - 2.0 * c * c * e - 2.0 * e * f * h - 2.0 * h * h * i, a * c + d * f + g * i) == 2.0 * a * c * i + 2.0 * d * f * i + 2.0 * g * i * i + 2.0 * a * b * c * d - 2.0 * a * d * e * f - 2.0 * a * e * g * i - 2.0 * a * a * c * e + 2.0 * b * d * g * i + 2.0 * b * d * d * f + 2.0 * a * b * c * c * f - 2.0 * a * b * c * c * h - 2.0 * a * c * e * f * h - 2.0 * a * c * h * h * i - 2.0 * a * c * c * d * h + 2.0 * a * c * c * e * g - 2.0 * a * c * c * c * e - 2.0 * b * c * d * f * h + 2.0 * b * c * d * f * f + 2.0 * b * c * f * g * i - 2.0 * b * c * g * h * i + 2.0 * c * d * e * f * g - 2.0 * c * d * g * h * i - 2.0 * c * d * d * f * h + 2.0 * c * e * g * g * i - 2.0 * c * c * d * e * f - 2.0 * c * c * e * g * i - 2.0 * d * e * f * f * h - 2.0 * d * f * h * h * i - 2.0 * e * f * g * h * i - 2.0 * g * h * h * i * i
  {}

  lemma Product02d(a: real, b: real, c: real, d: real, e: real, f: real, g: real, h: real, i: real)
    ensures Times(2.0 * d * f * i - 2.0 * f * f * g, b * b + e * e + h * h - 1.0) == -2.0 * d * f * i + 2.0 * f * f * g + 2.0 * b * b * d * f * i - 2.0 * b * b * f * f * g + 2.0 * d * e * e * f * i + 2.0 * d * f * h * h * i - 2.0 * e * e * f * f * g - 2.0 * f * f * g * h * h
  {}

  lemma Product02e(a: real, b: real, c: real, d: real, e: real, f: real, g: real, h: real, i: real)
    ensures Times(-2.0 * a * b * i - 2.0 * a * c * f + 2.0 * a * c * h + 2.0 * c * c * d - 2.0 * d * e * i + 2.0 * e * f * g, b * c + e * f + h * i) == -2.0 * a * b * c * c * f + 2.0 * a * b * c * c * h - 2.0 * a * b * e * f * i - 2.0 * a * b * h * i * i - 2.0 * a * b * b * c * i + 2.0 * a * c * e * f * h - 2.0 * a * c * e * f * f - 2.0 * a * c * f * h * i + 2.0 * a * c * h * h * i - 2.0 * b * c * d * e * i + 2.0 * b * c * e * f * g + 2.0 * b * c * c * c * d + 2.0 * c * c * d * e * f + 2.0 * c * c * d * h * i - 2.0 * d * e * h * i * i - 2.0 * d * e * e * f * i + 2.0 * e * f * g * h * i + 2.0 * e * e * f * f * g
  {}

  lemma Product02f(a: real, b: real, c: real, d: real, e: real, f: real, g: real, h: real, i: real)
    ensures Times(-2.0 * g + 2.0 * a * c * e - 2.0 * b * c * d, c * c + f * f + i * i - 1.0) == 2.0 * g - 2.0 * a * c * e + 2.0 * b * c * d - 2.0 * c * c * g - 2.0 * f * f * g - 2.0 * g * i * i + 2.0 * a * c * e * f * f + 2.0 * a * c * e * i * i + 2.0 * a * c * c * c * e - 2.0 * b * c * d * f * f - 2.0 * b * c * d * i * i - 2.0 * b * c * c * c * d
  {}

  lemma Product02g(a: real, b: real, c: real, d: real, e: real, f: real, g: real, h: real, i: real)
    ensures Times(2.0 * c + 2.0 * g + 2.0 * a * c + 2.0 * b * f - 2.0 * c * i, a * (e * i - f * h) - b * (d * i - f * g) + c * (d * h - e * g) - 1.0) == -2.0 * c - 2.0 * g - 2.0 * a * c - 2.0 * b * f + 2.0 * c * i + 2.0 * a * c * e * i - 2.0 * a * c * f * h + 2.0 * a * e * g * i - 2.0 * a * f * g * h - 2.0 * b * c * d * i + 2.0 * b * c * f * g - 2.0 * b * d * g * i + 2.0 * b * f * g * g + 2.0 * c * d * g * h - 2.0 * c * e * g * g + 2.0 * c * c * d * h - 2.0 * c * c * e * g - 2.0 * a * b * c * d * i + 2.0 * a * b * c * f * g + 2.0 * a * b * e * f * i - 2.0 * a * b * f * f * h - 2.0 * a * c * e * i * i + 2.0 * a * c * f * h * i + 2.0 * a * c * c * d * h - 2.0 * a * c * c * e * g + 2.0 * a * a * c * e * i - 2.0 * a * a * c * f * h + 2.0 * b * c * d * f * h + 2.0 * b * c * d * i * i - 2.0 * b * c * e * f * g - 2.0 * b * c * f * g * i - 2.0 * b * b * d * f * i + 2.0 * b * b * f * f * g - 2.0 * c * c * d * h * i + 2.0 * c * c * e * g * i
  {}

  /** Entry (0, 2) of A (2 D I + 4 skew(n)) - (2 D I - 4 skew(n)), expanded, vanishes on SO(3). */
  lemma RotationCayleyEntry02(a: real, b: real, c: real, d: real, e: real, f: real, g: real, h: real, i: real)
    requires SpecialOrthogonalEntries(a, b, c, d, e, f, g, h, i)
    ensures -2.0 * c - 2.0 * a * c - 2.0 * c * e + 2.0 * c * i - 2.0 * a * c * e + 2.0 * a * c * i + 2.0 * b * c * d + 2.0 * c * e * i - 2.0 * c * f * h - 2.0 * c * c * g + 2.0 * a * c * e * i - 2.0 * a * c * f * h - 2.0 * b * c * d * i + 2.0 * b * c * f * g + 2.0 * c * c * d * h - 2.0 * c * c * e * g == 0.0
  {
    Product02a(a, b, c, d, e, f, g, h, i);
    TimesZero(-2.0 * b * f + 2.0 * c * e - 2.0 * c * e * i + 2.0 * c * f * h, a * a + d * d + g * g - 1.0);
    Product02b(a, b, c, d, e, f, g, h, i);
    TimesZero(2.0 * a * f - 2.0 * c * d + 2.0 * b * c * i + 2.0 * c * d * i - 2.0 * c * f * g + 2.0 * f * f * h + 2.0 * h * i * i, a * b + d * e + g * h);
    Product02c(a, b, c, d, e, f, g, h, i);
    TimesZero(2.0 * i - 2.0 * a * e + 2.0 * b * d + 2.0 * b * c * f - 2.0 * b * c * h - 2.0 * c * d * h + 2.0 * c * e * g - 2.0 * c * c * e - 2.0 * e * f * h - 2.0 * h * h * i, a * c + d * f + g * i);
    Product02d(a, b, c, d, e, f, g, h, i);
    TimesZero(2.0 * d * f * i - 2.0 * f * f * g, b * b + e * e + h * h - 1.0);
    Product02e(a, b, c, d, e, f, g, h, i);
    TimesZero(-2.0 * a * b * i - 2.0 * a * c * f + 2.0 * a * c * h + 2.0 * c * c * d - 2.0 * d * e * i + 2.0 * e * f * g, b * c + e * f + h * i);
    Product02f(a, b, c, d, e, f, g, h, i);
    TimesZero(-2.0 * g + 2.0 * a * c * e - 2.0 * b * c * d, c * c + f * f + i * i - 1.0);
    Product02g(a, b, c, d, e, f, g, h, i);
    TimesZero(2.0 * c + 2.0 * g + 2.0 * a * c + 2.0 * b * f - 2.0 * c * i, a * (e * i - f * h) - b * (d * i - f * g) + c * (d * h - e * g) - 1.0);
  }

  /** Entry (0, 2) of A (2 D I + 4 skew(n)) - (2 D I - 4 skew(n)) as a polynomial in the
      entries of A. */
  lemma CayleyRelationPolynomial02(a: real, b: real, c: real, d: real, e: real, f: real, g: real, h: real, i: real)
    ensures Dot3(a, b, c,
                 ShiftedSkew(2.0 * CayleyDenominator(a, b, c, d, e, f, g, h, i), Scale(4.0, CayleyNumerators(a, b, c, d, e, f, g, h, i))).m02,
                 ShiftedSkew(2.0 * CayleyDenominator(a, b, c, d, e, f, g, h, i), Scale(4.0, CayleyNumerators(a, b, c, d, e, f, g, h, i))).m12,
                 ShiftedSkew(2.0 * CayleyDenominator(a, b, c, d, e, f, g, h, i), Scale(4.0, CayleyNumerators(a, b, c, d, e, f, g, h, i))).m22)
            - ShiftedSkew(2.0 * CayleyDenominator(a, b, c, d, e, f, g, h, i), Scale(-4.0, CayleyNumerators(a, b, c, d, e, f, g, h, i))).m02
         == -2.0 * c - 2.0 * a * c - 2.0 * c * e + 2.0 * c * i - 2.0 * a * c * e + 2.0 * a * c * i + 2.0 * b * c * d + 2.0 * c * e * i - 2.0 * c * f * h - 2.0 * c * c * g + 2.0 * a * c * e * i - 2.0 * a * c * f * h - 2.0 * b * c * d * i + 2.0 * b * c * f * g + 2.0 * c * c * d * h - 2.0 * c * c * e * g
  {}

  /** Entry (0, 2) of A (2 D I + 4 skew(n)) - (2 D I - 4 skew(n)), expanded. */
  lemma ExpandCayleyRelation02(A: Mat3)
    ensures MatMul(A, ShiftedSkew(2.0 * CayleyDenominator(A.m00, A.m01, A.m02, A.m10, A.m11, A.m12, A.m20, A.m21, A.m22), Scale(4.0, CayleyNumerators(A.m00, A.m01, A.m02, A.m10, A.m11, A.m12, A.m20, A.m21, A.m22)))).m02
            - ShiftedSkew(2.0 * CayleyDenominator(A.m00, A.m01, A.m02, A.m10, A.m11, A.m12, A.m20, A.m21, A.m22), Scale(-4.0, CayleyNumerators(A.m00, A.m01, A.m02, A.m10, A.m11, A.m12, A.m20, A.m21, A.m22))).m02
            == -2.0 * A.m02 - 2.0 * A.m00 * A.m02 - 2.0 * A.m02 * A.m11 + 2.0 * A.m02 * A.m22 - 2.0 * A.m00 * A.m02 * A.m11 + 2.0 * A.m00 * A.m02 * A.m22 + 2.0 * A.m01 * A.m02 * A.m10 + 2.0 * A.m02 * A.m11 * A.m22 - 2.0 * A.m02 * A.m12 * A.m21 - 2.0 * A.m02 * A.m02 * A.m20 + 2.0 * A.m00 * A.m02 * A.m11 * A.m22 - 2.0 * A.m00 * A.m02 * A.m12 * A.m21 - 2.0 * A.m01 * A.m02 * A.m10 * A.m22 + 2.0 * A.m01 * A.m02 * A.m12 * A.m20 + 2.0 * A.m02 * A.m02 * A.m10 * A.m21 - 2.0 * A.m02 * A.m02 * A.m11 * A.m20
  {
    CayleyRelationPolynomial02(A.m00, A.m01, A.m02, A.m10, A.m11, A.m12, A.m20, A.m21, A.m22);
  }

  // Entry (1, 0).

  lemma Product10a(a: real, b: real, c: real, d: real, e: real, f: real, g: real, h: real, i: real)
    ensures Times(-2.0 * a * b * i + 2.0 * a * c * h - 4.0 * b * i * i + 4.0 * c * h * i, a * a + d * d + g * g - 1.0) == 2.0 * a * b * i - 2.0 * a * c * h + 4.0 * b * i * i - 4.0 * c * h * i - 2.0 * a * b * d * d * i - 2.0 * a * b * g * g * i + 2.0 * a * c * d * d * h + 2.0 * a * c * g * g * h - 4.0 * a * a * b * i * i + 4.0 * a * a * c * h * i - 2.0 * a * a * a * b * i + 2.0 * a * a * a * c * h - 4.0 * b * d * d * i * i - 4.0 * b * g * g * i * i + 4.0 * c * d * d * h * i + 4.0 * c * g * g * h * i
  {}

  lemma Product10b(a: real, b: real, c: real, d: real, e: real, f: real, g: real, h: real, i: real)
    ensures Times(-2.0 * i - 4.0 * e * i + 4.0 * f * h - 2.0 * a * c * g + 4.0 * a * i * i + 2.0 * a * a * i + 2.0 * b * d * i - 2.0 * c * d * h - 4.0 * c * g * i, a * b + d * e + g * h) == -2.0 * a * b * i - 2.0 * d * e * i - 2.0 * g * h * i - 4.0 * a * b * e * i + 4.0 * a * b * f * h + 4.0 * d * e * f * h - 4.0 * d * e * e * i - 4.0 * e * g * h * i + 4.0 * f * g * h * h - 2.0 * a * b * c * d * h - 4.0 * a * b * c * g * i + 2.0 * a * b * b * d * i - 2.0 * a * c * d * e * g - 2.0 * a * c * g * g * h + 4.0 * a * d * e * i * i + 4.0 * a * g * h * i * i - 2.0 * a * a * b * c * g + 4.0 * a * a * b * i * i + 2.0 * a * a * d * e * i + 2.0 * a * a * g * h * i + 2.0 * a * a * a * b * i + 2.0 * b * d * g * h * i + 2.0 * b * d * d * e * i - 4.0 * c * d * e * g * i - 2.0 * c * d * g * h * h - 2.0 * c * d * d * e * h - 4.0 * c * g * g * h * i
  {}

  lemma Product10c(a: real, b: real, c: real, d: real, e: real, f: real, g: real, h: real, i: real)
    ensures Times(-2.0 * h + 2.0 * a * b * g - 4.0 * a * h * i - 2.0 * a * a * h - 4.0 * b * c * i - 2.0 * b * d * f + 4.0 * b * g * i + 2.0 * c * d * e + 4.0 * c * c * h, a * c + d * f + g * i) == -2.0 * a * c * h - 2.0 * d * f * h - 2.0 * g * h * i - 2.0 * a * b * c * d * f + 4.0 * a * b * c * g * i - 4.0 * a * b * c * c * i + 2.0 * a * b * d * f * g + 2.0 * a * b * g * g * i + 2.0 * a * c * c * d * e + 4.0 * a * c * c * c * h - 4.0 * a * d * f * h * i - 4.0 * a * g * h * i * i + 2.0 * a * a * b * c * g - 4.0 * a * a * c * h * i - 2.0 * a * a * d * f * h - 2.0 * a * a * g * h * i - 2.0 * a * a * a * c * h - 4.0 * b * c * d * f * i - 4.0 * b * c * g * i * i + 2.0 * b * d * f * g * i - 2.0 * b * d * d * f * f + 4.0 * b * g * g * i * i + 2.0 * c * d * e * g * i + 2.0 * c * d * d * e * f + 4.0 * c * c * d * f * h + 4.0 * c * c * g * h * i
  {}

  lemma Product10d(a: real, b: real, c: real, d: real, e: real, f: real, g: real, h: real, i: real)
    ensures Times(4.0 * d * i - 4.0 * f * g - 2.0 * a * d * i + 2.0 * c * d * g, b * b + e * e + h * h - 1.0) == -4.0 * d * i + 4.0 * f * g + 2.0 * a * d * i - 2.0 * c * d * g + 4.0 * b * b * d * i - 4.0 * b * b * f * g + 4.0 * d * e * e * i + 4.0 * d * h * h * i - 4.0 * e * e * f * g - 4.0 * f * g * h * h - 2.0 * a * b * b * d * i - 2.0 * a * d * e * e * i - 2.0 * a * d * h * h * i + 2.0 * b * b * c * d * g + 2.0 * c * d * e * e * g + 2.0 * c * d * g * h * h
  {}

  lemma Product10e(a: real, b: real, c: real, d: real, e: real, f: real, g: real, h: real, i: real)
    ensures Times(4.0 * c + 4.0 * g - 4.0 * d * h + 4.0 * e * g + 4.0 * a * c * i + 2.0 * a * d * f + 2.0 * a * d * h - 2.0 * b * d * g - 2.0 * c * d * d - 4.0 * c * c * g, b * c + e * f + h * i) == 4.0 * b * c * g + 4.0 * b * c * c + 4.0 * c * e * f + 4.0 * c * h * i + 4.0 * e * f * g + 4.0 * g * h * i - 4.0 * b * c * d * h + 4.0 * b * c * e * g - 4.0 * d * e * f * h - 4.0 * d * h * h * i + 4.0 * e * g * h * i + 4.0 * e * e * f * g + 2.0 * a * b * c * d * f + 2.0 * a * b * c * d * h + 4.0 * a * b * c * c * i + 4.0 * a * c * e * f * i + 4.0 * a * c * h * i * i + 2.0 * a * d * e * f * h + 2.0 * a * d * e * f * f + 2.0 * a * d * f * h * i + 2.0 * a * d * h * h * i - 2.0 * b * c * c * d * d - 4.0 * b * c * c * c * g - 2.0 * b * d * e * f * g - 2.0 * b * d * g * h * i - 2.0 * b * b * c * d * g - 2.0 * c * d * d * e * f - 2.0 * c * d * d * h * i - 4.0 * c * c * e * f * g - 4.0 * c * c * g * h * i
  {}

  lemma Product10f(a: real, b: real, c: real, d: real, e: real, f: real, g: real, h: real, i: real)
    ensures Times(-4.0 * b - 4.0 * a * c * h - 2.0 * a * d * e + 4.0 * b * c * g + 2.0 * b * d * d, c * c + f * f + i * i - 1.0) == 4.0 * b + 4.0 * a * c * h + 2.0 * a * d * e - 4.0 * b * c * g - 4.0 * b * c * c - 2.0 * b * d * d - 4.0 * b * f * f - 4.0 * b * i * i - 4.0 * a * c * f * f * h - 4.0 * a * c * h * i * i - 2.0 * a * c * c * d * e - 4.0 * a * c * c * c * h - 2.0 * a * d * e * f * f - 2.0 * a * d * e * i * i + 4.0 * b * c * f * f * g + 4.0 * b * c * g * i * i + 2.0 * b * c * c * d * d + 4.0 * b * c * c * c * g + 2.0 * b * d * d * f * f + 2.0 * b * d * d * i * i
  {}

  lemma Product10g(a: real, b: real, c: real, d: real, e: real, f: real, g: real, h: real, i: real)
    ensures Times(4.0 * b + 2.0 * d - 2.0 * a * d - 4.0 * c * f + 2.0 * d * e - 2.0 * d * i, a * (e * i - f * h) - b * (d * i - f * g) + c * (d * h - e * g) - 1.0) == -4.0 * b - 2.0 * d + 2.0 * a * d + 4.0 * c * f - 2.0 * d * e + 2.0 * d * i + 4.0 * a * b * e * i - 4.0 * a * b * f * h + 2.0 * a * d * e * i - 2.0 * a * d * f * h + 4.0 * b * c * d * h - 4.0 * b * c * e * g + 2.0 * b * d * f * g - 2.0 * b * d * d * i - 4.0 * b * b * d * i + 4.0 * b * b * f * g - 2.0 * c * d * e * g + 2.0 * c * d * d * h - 2.0 * a * b * d * f * g + 2.0 * a * b * d * d * i + 2.0 * a * c * d * e * g - 2.0 * a * c * d * d * h - 4.0 * a * c * e * f * i + 4.0 * a * c * f * f * h - 2.0 * a * d * e * f * h - 2.0 * a * d * e * i * i + 2.0 * a * d * e * e * i + 2.0 * a * d * f * h * i - 2.0 * a * a * d * e * i + 2.0 * a * a * d * f * h + 4.0 * b * c * d * f * i - 4.0 * b * c * f * f * g + 2.0 * b * d * e * f * g - 2.0 * b * d * f * g * i - 2.0 * b * d * d * e * i + 2.0 * b * d * d * i * i + 2.0 * c * d * e * g * i - 2.0 * c * d * e * e * g + 2.0 * c * d * d * e * h - 2.0 * c * d * d * h * i - 4.0 * c * c * d * f * h + 4.0 * c * c * e * f * g
  {}

  /** Entry (1, 0) of A (2 D I + 4 skew(n)) - (2 D I - 4 skew(n)), expanded, vanishes on SO(3). */
  lemma RotationCayleyEntry10(a: real, b: real, c: real, d: real, e: real, f: real, g: real, h: real, i: real)
    requires SpecialOrthogonalEntries(a, b, c, d, e, f, g, h, i)
    ensures -2.0 * d + 2.0 * a * d + 4.0 * c * f - 2.0 * d * e - 2.0 * d * i + 4.0 * f * g + 2.0 * a * d * e + 2.0 * a * d * i - 2.0 * b * d * d - 4.0 * b * f * f - 2.0 * c * d * g + 4.0 * c * e * f - 2.0 * d * e * i - 2.0 * d * f * h + 4.0 * e * f * g + 2.0 * a * d * e * i - 2.0 * a * d * f * h + 2.0 * b * d * f * g - 2.0 * b * d * d * i - 2.0 * c * d * e * g + 2.0 * c * d * d * h == 0.0
  {
    Product10a(a, b, c, d, e, f, g, h, i);
    TimesZero(-2.0 * a * b * i + 2.0 * a * c * h - 4.0 * b * i * i + 4.0 * c * h * i, a * a + d * d + g * g - 1.0);
    Product10b(a, b, c, d, e, f, g, h, i);
    TimesZero(-2.0 * i - 4.0 * e * i + 4.0 * f * h - 2.0 * a * c * g + 4.0 * a * i * i + 2.0 * a * a * i + 2.0 * b * d * i - 2.0 * c * d * h - 4.0 * c * g * i, a * b + d * e + g * h);
    Product10c(a, b, c, d, e, f, g, h, i);
    TimesZero(-2.0 * h + 2.0 * a * b * g - 4.0 * a * h * i - 2.0 * a * a * h - 4.0 * b * c * i - 2.0 * b * d * f + 4.0 * b * g * i + 2.0 * c * d * e + 4.0 * c * c * h, a * c + d * f + g * i);
    Product10d(a, b, c, d, e, f, g, h, i);
    TimesZero(4.0 * d * i - 4.0 * f * g - 2.0 * a * d * i + 2.0 * c * d * g, b * b + e * e + h * h - 1.0);
    Product10e(a, b, c, d, e, f, g, h, i);
    TimesZero(4.0 * c + 4.0 * g - 4.0 * d * h + 4.0 * e * g + 4.0 * a * c * i + 2.0 * a * d * f + 2.0 * a * d * h - 2.0 * b * d * g - 2.0 * c * d * d - 4.0 * c * c * g, b * c + e * f + h * i);
    Product10f(a, b, c, d, e, f, g, h, i);
    TimesZero(-4.0 * b - 4.0 * a * c * h - 2.0 * a * d * e + 4.0 * b * c * g + 2.0 * b * d * d, c * c + f * f + i * i - 1.0);
    Product10g(a, b, c, d, e, f, g, h, i);
    TimesZero(4.0 * b + 2.0 * d - 2.0 * a * d - 4.0 * c * f + 2.0 * d * e - 2.0 * d * i, a * (e * i - f * h) - b * (d * i - f * g) + c * (d * h - e * g) - 1.0);
  }

  /** Entry (1, 0) of A (2 D I + 4 skew(n)) - (2 D I - 4 skew(n)) as a polynomial in the
      entries of A. */
  lemma CayleyRelationPolynomial10(a: real, b: real, c: real, d: real, e: real, f: real, g: real, h: real, i: real)
    ensures Dot3(d, e, f,
                 ShiftedSkew(2.0 * CayleyDenominator(a, b, c, d, e, f, g, h, i), Scale(4.0, CayleyNumerators(a, b, c, d, e, f, g, h, i))).m00,
                 ShiftedSkew(2.0 * CayleyDenominator(a, b, c, d, e, f, g, h, i), Scale(4.0, CayleyNumerators(a, b, c, d, e, f, g, h, i))).m10,
                 ShiftedSkew(2.0 * CayleyDenominator(a, b, c, d, e, f, g, h, i), Scale(4.0, CayleyNumerators(a, b, c, d, e, f, g, h, i))).m20)
            - ShiftedSkew(2.0 * CayleyDenominator(a, b, c, d, e, f, g, h, i), Scale(-4.0, CayleyNumerators(a, b, c, d, e, f, g, h, i))).m10
         == -2.0 * d + 2.0 * a * d + 4.0 * c * f - 2.0 * d * e - 2.0 * d * i + 4.0 * f * g + 2.0 * a * d * e + 2.0 * a * d * i - 2.0 * b * d * d - 4.0 * b * f * f - 2.0 * c * d * g + 4.0 * c * e * f - 2.0 * d * e * i - 2.0 * d * f * h + 4.0 * e * f * g + 2.0 * a * d * e * i - 2.0 * a * d * f * h + 2.0 * b * d * f * g - 2.0 * b * d * d * i - 2.0 * c * d * e * g + 2.0 * c * d * d * h
  {}

  /** Entry (1, 0) of A (2 D I + 4 skew(n)) - (2 D I - 4 skew(n)), expanded. */
  lemma ExpandCayleyRelation10(A: Mat3)
    ensures MatMul(A, ShiftedSkew(2.0 * CayleyDenominator(A.m00, A.m01, A.m02, A.m10, A.m11, A.m12, A.m20, A.m21, A.m22), Scale(4.0, CayleyNumerators(A.m00, A.m01, A.m02, A.m10, A.m11, A.m12, A.m20, A.m21, A.m22)))).m10
            - ShiftedSkew(2.0 * CayleyDenominator(A.m00, A.m01, A.m02, A.m10, A.m11, A.m12, A.m20, A.m21, A.m22), Scale(-4.0, CayleyNumerators(A.m00, A.m01, A.m02, A.m10, A.m11, A.m12, A.m20, A.m21, A.m22))).m10
            == -2.0 * A.m10 + 2.0 * A.m00 * A.m10 + 4.0 * A.m02 * A.m12 - 2.0 * A.m10 * A.m11 - 2.0 * A.m10 * A.m22 + 4.0 * A.m12 * A.m20 + 2.0 * A.m00 * A.m10 * A.m11 + 2.0 * A.m00 * A.m10 * A.m22 - 2.0 * A.m01 * A.m10 * A.m10 - 4.0 * A.m01 * A.m12 * A.m12 - 2.0 * A.m02 * A.m10 * A.m20 + 4.0 * A.m02 * A.m11 * A.m12 - 2.0 * A.m10 * A.m11 * A.m22 - 2.0 * A.m10 * A.m12 * A.m21 + 4.0 * A.m11 * A.m12 * A.m20 + 2.0 * A.m00 * A.m10 * A.m11 * A.m22 - 2.0 * A.m00 * A.m10 * A.m12 * A.m21 + 2.0 * A.m01 * A.m10 * A.m12 * A.m20 - 2.0 * A.m01 * A.m10 * A.m10 * A.m22 - 2.0 * A.m02 * A.m10 * A.m11 * A.m20 + 2.0 * A.m02 * A.m10 * A.m10 * A.m21
  {
    CayleyRelationPolynomial10(A.m00, A.m01, A.m02, A.m10, A.m11, A.m12, A.m20, A.m21, A.m22);
  }

  // Entry (1, 1).

  lemma Product11a(a: real, b: real, c: real, d: real, e: real, f: real, g: real, h: real, i: real)
    ensures Times(4.0 * i + 2.0 * e * i - 2.0 * f * h - 4.0 * b * d * i + 4.0 * c * d * h + 2.0 * e * f * h - 2.0 * e * e * i, a * a + d * d + g * g - 1.0) == -4.0 * i - 2.0 * e * i + 2.0 * f * h + 4.0 * a * a * i + 4.0 * b * d * i - 4.0 * c * d * h + 4.0 * d * d * i - 2.0 * e * f * h + 2.0 * e * e * i + 4.0 * g * g * i + 2.0 * a * a * e * i - 2.0 * a * a * f * h + 2.0 * d * d * e * i - 2.0 * d * d * f * h + 2.0 * e * g * g * i - 2.0 * f * g * g * h - 4.0 * a * a * b * d * i + 4.0 * a * a * c * d * h + 2.0 * a * a * e * f * h - 2.0 * a * a * e * e * i - 4.0 * b * d * g * g * i - 4.0 * b * d * d * d * i + 4.0 * c * d * g * g * h + 4.0 * c * d * d * d * h + 2.0 * d * d * e * f * h - 2.0 * d * d * e * e * i + 2.0 * e * f * g * g * h - 2.0 * e * e * g * g * i
  {}

  lemma Product11b(a: real, b: real, c: real, d: real, e: real, f: real, g: real, h: real, i: real)
    ensures Times(-2.0 * b * i + 2.0 * c * h - 2.0 * d * i + 2.0 * f * g - 4.0 * a * b * i + 4.0 * a * c * h + 4.0 * a * d * i - 2.0 * b * e * i - 4.0 * b * i * i - 4.0 * c * d * g + 2.0 * c * e * h + 4.0 * c * h * i + 2.0 * d * e * i - 2.0 * e * f * g, a * b + d * e + g * h) == 2.0 * a * b * c * h - 2.0 * a * b * d * i + 2.0 * a * b * f * g - 2.0 * a * b * b * i - 2.0 * b * d * e * i - 2.0 * b * g * h * i + 2.0 * c * d * e * h + 2.0 * c * g * h * h + 2.0 * d * e * f * g - 2.0 * d * g * h * i - 2.0 * d * d * e * i + 2.0 * f * g * g * h - 4.0 * a * b * c * d * g + 2.0 * a * b * c * e * h + 4.0 * a * b * c * h * i - 2.0 * a * b * d * e * i - 2.0 * a * b * e * f * g - 4.0 * a * b * g * h * i - 2.0 * a * b * b * e * i - 4.0 * a * b * b * i * i + 4.0 * a * c * d * e * h + 4.0 * a * c * g * h * h + 4.0 * a * d * g * h * i + 4.0 * a * d * d * e * i + 4.0 * a * a * b * c * h + 4.0 * a * a * b * d * i - 4.0 * a * a * b * b * i - 4.0 * b * d * e * i * i - 2.0 * b * d * e * e * i - 2.0 * b * e * g * h * i - 4.0 * b * g * h * i * i + 4.0 * c * d * e * h * i + 2.0 * c * d * e * e * h - 4.0 * c * d * g * g * h - 4.0 * c * d * d * e * g + 2.0 * c * e * g * h * h + 4.0 * c * g * h * h * i + 2.0 * d * e * g * h * i - 2.0 * d * e * e * f * g + 2.0 * d * d * e * e * i - 2.0 * e * f * g * g * h
  {}

  lemma Product11c(a: real, b: real, c: real, d: real, e: real, f: real, g: real, h: real, i: real)
    ensures Times(-4.0 * g + 2.0 * b * f - 2.0 * c * e + 2.0 * d * h - 2.0 * e * g - 4.0 * a * d * h + 4.0 * b * d * g + 2.0 * b * e * f - 4.0 * b * f * i + 4.0 * b * h * i - 2.0 * c * e * e + 4.0 * c * f * h - 4.0 * c * h * h - 2.0 * d * e * h + 2.0 * e * e * g, a * c + d * f + g * i) == -4.0 * a * c * g - 4.0 * d * f * g - 4.0 * g * g * i + 2.0 * a * b * c * f + 2.0 * a * c * d * h - 2.0 * a * c * e * g - 2.0 * a * c * c * e + 2.0 * b * d * f * f + 2.0 * b * f * g * i - 2.0 * c * d * e * f - 2.0 * c * e * g * i - 2.0 * d * e * f * g + 2.0 * d * g * h * i + 2.0 * d * d * f * h - 2.0 * e * g * g * i + 4.0 * a * b * c * d * g + 2.0 * a * b * c * e * f - 4.0 * a * b * c * f * i + 4.0 * a * b * c * h * i - 2.0 * a * c * d * e * h + 2.0 * a * c * e * e * g - 2.0 * a * c * c * e * e + 4.0 * a * c * c * f * h - 4.0 * a * c * c * h * h - 4.0 * a * d * g * h * i - 4.0 * a * d * d * f * h - 4.0 * a * a * c * d * h + 2.0 * b * d * e * f * f + 4.0 * b * d * f * h * i - 4.0 * b * d * f * f * i + 4.0 * b * d * g * g * i + 4.0 * b * d * d * f * g + 2.0 * b * e * f * g * i - 4.0 * b * f * g * i * i + 4.0 * b * g * h * i * i - 2.0 * c * d * e * e * f - 4.0 * c * d * f * h * h + 4.0 * c * d * f * f * h - 2.0 * c * e * e * g * i + 4.0 * c * f * g * h * i - 4.0 * c * g * h * h * i - 2.0 * d * e * g * h * i + 2.0 * d * e * e * f * g - 2.0 * d * d * e * f * h + 2.0 * e * e * g * g * i
  {}

  lemma Product11d(a: real, b: real, c: real, d: real, e: real, f: real, g: real, h: real, i: real)
    ensures Times(2.0 * a * i - 2.0 * c * g - 4.0 * a * c * g + 4.0 * a * c * c + 2.0 * a * e * i + 4.0 * a * i * i + 4.0 * a * a * i + 4.0 * c * d * f - 2.0 * c * e * g, b * b + e * e + h * h - 1.0) == -2.0 * a * i + 2.0 * c * g + 4.0 * a * c * g - 4.0 * a * c * c - 2.0 * a * e * i - 4.0 * a * i * i - 4.0 * a * a * i - 4.0 * c * d * f + 2.0 * c * e * g + 2.0 * a * b * b * i + 2.0 * a * e * e * i + 2.0 * a * h * h * i - 2.0 * b * b * c * g - 2.0 * c * e * e * g - 2.0 * c * g * h * h - 4.0 * a * b * b * c * g + 4.0 * a * b * b * c * c + 2.0 * a * b * b * e * i + 4.0 * a * b * b * i * i - 4.0 * a * c * e * e * g - 4.0 * a * c * g * h * h + 4.0 * a * c * c * e * e + 4.0 * a * c * c * h * h + 2.0 * a * e * h * h * i + 4.0 * a * e * e * i * i + 2.0 * a * e * e * e * i + 4.0 * a * h * h * i * i + 4.0 * a * a * b * b * i + 4.0 * a * a * e * e * i + 4.0 * a * a * h * h * i + 4.0 * b * b * c * d * f - 2.0 * b * b * c * e * g + 4.0 * c * d * e * e * f + 4.0 * c * d * f * h * h - 2.0 * c * e * g * h * h - 2.0 * c * e * e * e * g
  {}

  lemma Product11e(a: real, b: real, c: real, d: real, e: real, f: real, g: real, h: real, i: real)
    ensures Times(-2.0 * a * f - 2.0 * a * h + 2.0 * b * g + 2.0 * c * d - 4.0 * a * b * c + 4.0 * a * b * g + 2.0 * a * e * f - 2.0 * a * e * h + 4.0 * a * f * i - 4.0 * a * h * i - 4.0 * a * a * h - 4.0 * b * d * f + 2.0 * b * e * g - 2.0 * c * d * e - 4.0 * c * f * g, b * c + e * f + h * i) == -2.0 * a * b * c * f - 2.0 * a * b * c * h - 2.0 * a * e * f * h - 2.0 * a * e * f * f - 2.0 * a * f * h * i - 2.0 * a * h * h * i + 2.0 * b * c * c * d + 2.0 * b * e * f * g + 2.0 * b * g * h * i + 2.0 * b * b * c * g + 2.0 * c * d * e * f + 2.0 * c * d * h * i - 2.0 * a * b * c * e * f - 2.0 * a * b * c * e * h + 4.0 * a * b * c * f * i - 8.0 * a * b * c * h * i + 4.0 * a * b * e * f * g + 4.0 * a * b * g * h * i + 4.0 * a * b * b * c * g - 4.0 * a * b * b * c * c - 2.0 * a * e * f * h * i + 4.0 * a * e * f * f * i - 2.0 * a * e * h * h * i - 2.0 * a * e * e * f * h + 2.0 * a * e * e * f * f + 4.0 * a * f * h * i * i - 4.0 * a * h * h * i * i - 4.0 * a * a * b * c * h - 4.0 * a * a * e * f * h - 4.0 * a * a * h * h * i - 2.0 * b * c * c * d * e - 4.0 * b * c * c * f * g - 4.0 * b * d * e * f * f - 4.0 * b * d * f * h * i + 2.0 * b * e * g * h * i + 2.0 * b * e * e * f * g - 4.0 * b * b * c * d * f + 2.0 * b * b * c * e * g - 2.0 * c * d * e * h * i - 2.0 * c * d * e * e * f - 4.0 * c * e * f * f * g - 4.0 * c * f * g * h * i
  {}

  lemma Product11f(a: real, b: real, c: real, d: real, e: real, f: real, g: real, h: real, i: real)
    ensures Times(4.0 * a + 2.0 * a * e - 2.0 * b * d - 2.0 * a * e * e - 4.0 * a * f * h + 2.0 * b * d * e + 4.0 * b * f * g, c * c + f * f + i * i - 1.0) == -4.0 * a - 2.0 * a * e + 2.0 * b * d + 4.0 * a * c * c + 2.0 * a * e * e + 4.0 * a * f * h + 4.0 * a * f * f + 4.0 * a * i * i - 2.0 * b * d * e - 4.0 * b * f * g + 2.0 * a * c * c * e + 2.0 * a * e * f * f + 2.0 * a * e * i * i - 2.0 * b * c * c * d - 2.0 * b * d * f * f - 2.0 * b * d * i * i - 2.0 * a * c * c * e * e - 4.0 * a * c * c * f * h - 2.0 * a * e * e * f * f - 2.0 * a * e * e * i * i - 4.0 * a * f * h * i * i - 4.0 * a * f * f * f * h + 2.0 * b * c * c * d * e + 4.0 * b * c * c * f * g + 2.0 * b * d * e * f * f + 2.0 * b * d * e * i * i + 4.0 * b * f * g * i * i + 4.0 * b * f * f * f * g
  {}

  lemma Product11g(a: real, b: real, c: real, d: real, e: real, f: real, g: real, h: real, i: real)
    ensures Times(2.0 - 2.0 * a - 2.0 * i - 2.0 * a * e - 4.0 * d * d - 2.0 * e * i - 2.0 * e * e - 4.0 * f * f, a * (e * i - f * h) - b * (d * i - f * g) + c * (d * h - e * g) - 1.0) == -2.0 + 2.0 * a + 2.0 * i + 2.0 * a * e + 4.0 * d * d + 2.0 * e * i + 2.0 * e * e + 4.0 * f * f + 2.0 * a * e * i - 2.0 * a * f * h - 2.0 * b * d * i + 2.0 * b * f * g + 2.0 * c * d * h - 2.0 * c * e * g + 2.0 * a * b * d * i - 2.0 * a * b * f * g - 2.0 * a * c * d * h + 2.0 * a * c * e * g - 2.0 * a * e * i * i + 2.0 * a * f * h * i - 2.0 * a * a * e * i + 2.0 * a * a * f * h + 2.0 * b * d * i * i - 2.0 * b * f * g * i - 2.0 * c * d * h * i + 2.0 * c * e * g * i + 2.0 * a * b * d * e * i - 2.0 * a * b * e * f * g - 2.0 * a * c * d * e * h + 2.0 * a * c * e * e * g - 4.0 * a * d * d * e * i + 4.0 * a * d * d * f * h + 2.0 * a * e * f * h * i - 4.0 * a * e * f * f * i + 2.0 * a * e * e * f * h - 2.0 * a * e * e * i * i - 2.0 * a * e * e * e * i + 4.0 * a * f * f * f * h + 2.0 * a * a * e * f * h - 2.0 * a * a * e * e * i + 2.0 * b * d * e * i * i + 2.0 * b * d * e * e * i + 4.0 * b * d * f * f * i - 4.0 * b * d * d * f * g + 4.0 * b * d * d * d * i - 2.0 * b * e * f * g * i - 2.0 * b * e * e * f * g - 4.0 * b * f * f * f * g - 2.0 * c * d * e * h * i - 2.0 * c * d * e * e * h - 4.0 * c * d * f * f * h + 4.0 * c * d * d * e * g - 4.0 * c * d * d * d * h + 4.0 * c * e * f * f * g + 2.0 * c * e * e * g * i + 2.0 * c * e * e * e * g
  {}

  /** Entry (1, 1) of A (2 D I + 4 skew(n)) - (2 D I - 4 skew(n)), expanded, vanishes on SO(3). */
  lemma RotationCayleyEntry11(a: real, b: real, c: real, d: real, e: real, f: real, g: real, h: real, i: real)
    requires SpecialOrthogonalEntries(a, b, c, d, e, f, g, h, i)
    ensures -2.0 - 2.0 * a - 2.0 * i - 2.0 * a * i + 2.0 * b * d + 2.0 * c * g + 4.0 * d * d + 2.0 * e * e + 2.0 * f * h + 4.0 * f * f + 2.0 * a * e * e + 2.0 * a * f * h + 4.0 * a * f * f - 2.0 * b * d * e + 2.0 * b * d * i - 2.0 * b * f * g - 4.0 * c * d * f - 2.0 * c * d * h - 4.0 * d * f * g + 4.0 * d * d * i - 2.0 * e * f * h + 2.0 * e * e * i - 2.0 * a * e * f * h + 2.0 * a * e * e * i - 2.0 * b * d * e * i + 2.0 * b * e * f * g + 2.0 * c * d * e * h - 2.0 * c * e * e * g == 0.0
  {
    Product11a(a, b, c, d, e, f, g, h, i);
    TimesZero(4.0 * i + 2.0 * e * i - 2.0 * f * h - 4.0 * b * d * i + 4.0 * c * d * h + 2.0 * e * f * h - 2.0 * e * e * i, a * a + d * d + g * g - 1.0);
    Product11b(a, b, c, d, e, f, g, h, i);
    TimesZero(-2.0 * b * i + 2.0 * c * h - 2.0 * d * i + 2.0 * f * g - 4.0 * a * b * i + 4.0 * a * c * h + 4.0 * a * d * i - 2.0 * b * e * i - 4.0 * b * i * i - 4.0 * c * d * g + 2.0 * c * e * h + 4.0 * c * h * i + 2.0 * d * e * i - 2.0 * e * f * g, a * b + d * e + g * h);
    Product11c(a, b, c, d, e, f, g, h, i);
    TimesZero(-4.0 * g + 2.0 * b * f - 2.0 * c * e + 2.0 * d * h - 2.0 * e * g - 4.0 * a * d * h + 4.0 * b * d * g + 2.0 * b * e * f - 4.0 * b * f * i + 4.0 * b * h * i - 2.0 * c * e * e + 4.0 * c * f * h - 4.0 * c * h * h - 2.0 * d * e * h + 2.0 * e * e * g, a * c + d * f + g * i);
    Product11d(a, b, c, d, e, f, g, h, i);
    TimesZero(2.0 * a * i - 2.0 * c * g - 4.0 * a * c * g + 4.0 * a * c * c + 2.0 * a * e * i + 4.0 * a * i * i + 4.0 * a * a * i + 4.0 * c * d * f - 2.0 * c * e * g, b * b + e * e + h * h - 1.0);
    Product11e(a, b, c, d, e, f, g, h, i);
    TimesZero(-2.0 * a * f - 2.0 * a * h + 2.0 * b * g + 2.0 * c * d - 4.0 * a * b * c + 4.0 * a * b * g + 2.0 * a * e * f - 2.0 * a * e * h + 4.0 * a * f * i - 4.0 * a * h * i - 4.0 * a * a * h - 4.0 * b * d * f + 2.0 * b * e * g - 2.0 * c * d * e - 4.0 * c * f * g, b * c + e * f + h * i);
    Product11f(a, b, c, d, e, f, g, h, i);
    TimesZero(4.0 * a + 2.0 * a * e - 2.0 * b * d - 2.0 * a * e * e - 4.0 * a * f * h + 2.0 * b * d * e + 4.0 * b * f * g, c * c + f * f + i * i - 1.0);
    Product11g(a, b, c, d, e, f, g, h, i);
    TimesZero(2.0 - 2.0 * a - 2.0 * i - 2.0 * a * e - 4.0 * d * d - 2.0 * e * i - 2.0 * e * e - 4.0 * f * f, a * (e * i - f * h) - b * (d * i - f * g) + c * (d * h - e * g) - 1.0);
  }

  /** Entry (1, 1) of A (2 D I + 4 skew(n)) - (2 D I - 4 skew(n)) as a polynomial in the
      entries of A. */
  lemma CayleyRelationPolynomial11(a: real, b: real, c: real, d: real, e: real, f: real, g: real, h: real, i: real)
    ensures Dot3(d, e, f,
                 ShiftedSkew(2.0 * CayleyDenominator(a, b, c, d, e, f, g, h, i), Scale(4.0, CayleyNumerators(a, b, c, d, e, f, g, h, i))).m01,
                 ShiftedSkew(2.0 * CayleyDenominator(a, b, c, d, e, f, g, h, i), Scale(4.0, CayleyNumerators(a, b, c, d, e, f, g, h, i))).m11,
                 ShiftedSkew(2.0 * CayleyDenominator(a, b, c, d, e, f, g, h, i), Scale(4.0, CayleyNumerators(a, b, c, d, e, f, g, h, i))).m21)
            - ShiftedSkew(2.0 * CayleyDenominator(a, b, c, d, e, f, g, h, i), Scale(-4.0, CayleyNumerators(a, b, c, d, e, f, g, h, i))).m11
         == -2.0 - 2.0 * a - 2.0 * i - 2.0 * a * i + 2.0 * b * d + 2.0 * c * g + 4.0 * d * d + 2.0 * e * e + 2.0 * f * h + 4.0 * f * f + 2.0 * a * e * e + 2.0 * a * f * h + 4.0 * a * f * f - 2.0 * b * d * e + 2.0 * b * d * i - 2.0 * b * f * g - 4.0 * c * d * f - 2.0 * c * d * h - 4.0 * d * f * g + 4.0 * d * d * i - 2.0 * e * f * h + 2.0 * e * e * i - 2.0 * a * e * f * h + 2.0 * a * e * e * i - 2.0 * b * d * e * i + 2.0 * b * e * f * g + 2.0 * c * d * e * h - 2.0 * c * e * e * g
  {}

  /** Entry (1, 1) of A (2 D I + 4 skew(n)) - (2 D I - 4 skew(n)), expanded. */
  lemma ExpandCayleyRelation11(A: Mat3)
    ensures MatMul(A, ShiftedSkew(2.0 * CayleyDenominator(A.m00, A.m01, A.m02, A.m10, A.m11, A.m12, A.m20, A.m21, A.m22), Scale(4.0, CayleyNumerators(A.m00, A.m01, A.m02, A.m10, A.m11, A.m12, A.m20, A.m21, A.m22)))).m11
            - ShiftedSkew(2.0 * CayleyDenominator(A.m00, A.m01, A.m02, A.m10, A.m11, A.m12, A.m20, A.m21, A.m22), Scale(-4.0, CayleyNumerators(A.m00, A.m01, A.m02, A.m10, A.m11, A.m12, A.m20, A.m21, A.m22))).m11
            == -2.0 - 2.0 * A.m00 - 2.0 * A.m22 - 2.0 * A.m00 * A.m22 + 2.0 * A.m01 * A.m10 + 2.0 * A.m02 * A.m20 + 4.0 * A.m10 * A.m10 + 2.0 * A.m11 * A.m11 + 2.0 * A.m12 * A.m21 + 4.0 * A.m12 * A.m12 + 2.0 * A.m00 * A.m11 * A.m11 + 2.0 * A.m00 * A.m12 * A.m21 + 4.0 * A.m00 * A.m12 * A.m12 - 2.0 * A.m01 * A.m10 * A.m11 + 2.0 * A.m01 * A.m10 * A.m22 - 2.0 * A.m01 * A.m12 * A.m20 - 4.0 * A.m02 * A.m10 * A.m12 - 2.0 * A.m02 * A.m10 * A.m21 - 4.0 * A.m10 * A.m12 * A.m20 + 4.0 * A.m10 * A.m10 * A.m22 - 2.0 * A.m11 * A.m12 * A.m21 + 2.0 * A.m11 * A.m11 * A.m22 - 2.0 * A.m00 * A.m11 * A.m12 * A.m21 + 2.0 * A.m00 * A.m11 * A.m11 * A.m22 - 2.0 * A.m01 * A.m10 * A.m11 * A.m22 + 2.0 * A.m01 * A.m11 * A.m12 * A.m20 + 2.0 * A.m02 * A.m10 * A.m11 * A.m21 - 2.0 * A.m02 * A.m11 * A.m11 * A.m20
  {
    CayleyRelationPolynomial11(A.m00, A.m01, A.m02, A.m10, A.m11, A.m12, A.m20, A.m21, A.m22);
  }

  // Entry (1, 2).

  lemma Product12a(a: real, b: real, c: real, d: real, e: real, f: real, g: real, h: real, i: real)
    ensures Times(-2.0 * e * f * i + 2.0 * f * f * h, a * a + d * d + g * g - 1.0) == 2.0 * e * f * i - 2.0 * f * f * h - 2.0 * a * a * e * f * i + 2.0 * a * a * f * f * h - 2.0 * d * d * e * f * i + 2.0 * d * d * f * f * h - 2.0 * e * f * g * g * i + 2.0 * f * f * g * g * h
  {}

  lemma Product12b(a: real, b: real, c: real, d: real, e: real, f: real, g: real, h: real, i: real)
    ensures Times(2.0 * b * f * i - 2.0 * c * f * h + 2.0 * d * f * i - 2.0 * f * f * g, a * b + d * e + g * h) == -2.0 * a * b * c * f * h + 2.0 * a * b * d * f * i - 2.0 * a * b * f * f * g + 2.0 * a * b * b * f * i + 2.0 * b * d * e * f * i + 2.0 * b * f * g * h * i - 2.0 * c * d * e * f * h - 2.0 * c * f * g * h * h - 2.0 * d * e * f * f * g + 2.0 * d * f * g * h * i + 2.0 * d * d * e * f * i - 2.0 * f * f * g * g * h
  {}

  lemma Product12c(a: real, b: real, c: real, d: real, e: real, f: real, g: real, h: real, i: real)
    ensures Times(2.0 * b * f * f - 2.0 * c * e * f - 2.0 * d * f * h + 2.0 * e * f * g, a * c + d * f + g * i) == 2.0 * a * b * c * f * f - 2.0 * a * c * d * f * h + 2.0 * a * c * e * f * g - 2.0 * a * c * c * e * f + 2.0 * b * d * f * f * f + 2.0 * b * f * f * g * i - 2.0 * c * d * e * f * f - 2.0 * c * e * f * g * i + 2.0 * d * e * f * f * g - 2.0 * d * f * g * h * i - 2.0 * d * d * f * f * h + 2.0 * e * f * g * g * i
  {}

  lemma Product12d(a: real, b: real, c: real, d: real, e: real, f: real, g: real, h: real, i: real)
    ensures Times(-2.0 * a * f * i + 2.0 * c * f * g, b * b + e * e + h * h - 1.0) == 2.0 * a * f * i - 2.0 * c * f * g - 2.0 * a * b * b * f * i - 2.0 * a * e * e * f * i - 2.0 * a * f * h * h * i + 2.0 * b * b * c * f * g + 2.0 * c * e * e * f * g + 2.0 * c * f * g * h * h
  {}

  lemma Product12e(a: real, b: real, c: real, d: real, e: real, f: real, g: real, h: real, i: real)
    ensures Times(2.0 * a * f * h - 2.0 * a * f * f - 2.0 * b * f * g + 2.0 * c * d * f, b * c + e * f + h * i) == 2.0 * a * b * c * f * h - 2.0 * a * b * c * f * f + 2.0 * a * e * f * f * h - 2.0 * a * e * f * f * f + 2.0 * a * f * h * h * i - 2.0 * a * f * f * h * i + 2.0 * b * c * c * d * f - 2.0 * b * e * f * f * g - 2.0 * b * f * g * h * i - 2.0 * b * b * c * f * g + 2.0 * c * d * e * f * f + 2.0 * c * d * f * h * i
  {}

  lemma Product12f(a: real, b: real, c: real, d: real, e: real, f: real, g: real, h: real, i: real)
    ensures Times(2.0 * a * e * f - 2.0 * b * d * f, c * c + f * f + i * i - 1.0) == -2.0 * a * e * f + 2.0 * b * d * f + 2.0 * a * c * c * e * f + 2.0 * a * e * f * i * i + 2.0 * a * e * f * f * f - 2.0 * b * c * c * d * f - 2.0 * b * d * f * i * i - 2.0 * b * d * f * f * f
  {}

  lemma Product12g(a: real, b: real, c: real, d: real, e: real, f: real, g: real, h: real, i: real)
    ensures Times(2.0 * f + 2.0 * a * f + 2.0 * e * f - 2.0 * f * i, a * (e * i - f * h) - b * (d * i - f * g) + c * (d * h - e * g) - 1.0) == -2.0 * f - 2.0 * a * f - 2.0 * e * f + 2.0 * f * i + 2.0 * a * e * f * i - 2.0 * a * f * f * h - 2.0 * b * d * f * i + 2.0 * b * f * f * g + 2.0 * c * d * f * h - 2.0 * c * e * f * g - 2.0 * a * b * d * f * i + 2.0 * a * b * f * f * g + 2.0 * a * c * d * f * h - 2.0 * a * c * e * f * g - 2.0 * a * e * f * i * i - 2.0 * a * e * f * f * h + 2.0 * a * e * e * f * i + 2.0 * a * f * f * h * i + 2.0 * a * a * e * f * i - 2.0 * a * a * f * f * h - 2.0 * b * d * e * f * i + 2.0 * b * d * f * i * i + 2.0 * b * e * f * f * g - 2.0 * b * f * f * g * i + 2.0 * c * d * e * f * h - 2.0 * c * d * f * h * i + 2.0 * c * e * f * g * i - 2.0 * c * e * e * f * g
  {}

  /** Entry (1, 2) of A (2 D I + 4 skew(n)) - (2 D I - 4 skew(n)), expanded, vanishes on SO(3). */
  lemma RotationCayleyEntry12(a: real, b: real, c: real, d: real, e: real, f: real, g: real, h: real, i: real)
    requires SpecialOrthogonalEntries(a, b, c, d, e, f, g, h, i)
    ensures -2.0 * f - 2.0 * a * f - 2.0 * e * f + 2.0 * f * i - 2.0 * a * e * f + 2.0 * a * f * i + 2.0 * b * d * f - 2.0 * c * f * g + 2.0 * e * f * i - 2.0 * f * f * h + 2.0 * a * e * f * i - 2.0 * a * f * f * h - 2.0 * b * d * f * i + 2.0 * b * f * f * g + 2.0 * c * d * f * h - 2.0 * c * e * f * g == 0.0
  {
    Product12a(a, b, c, d, e, f, g, h, i);
    TimesZero(-2.0 * e * f * i + 2.0 * f * f * h, a * a + d * d + g * g - 1.0);
    Product12b(a, b, c, d, e, f, g, h, i);
    TimesZero(2.0 * b * f * i - 2.0 * c * f * h + 2.0 * d * f * i - 2.0 * f * f * g, a * b + d * e + g * h);
    Product12c(a, b, c, d, e, f, g, h, i);
    TimesZero(2.0 * b * f * f - 2.0 * c * e * f - 2.0 * d * f * h + 2.0 * e * f * g, a * c + d * f + g * i);
    Product12d(a, b, c, d, e, f, g, h, i);
    TimesZero(-2.0 * a * f * i + 2.0 * c * f * g, b * b + e * e + h * h - 1.0);
    Product12e(a, b, c, d, e, f, g, h, i);
    TimesZero(2.0 * a * f * h - 2.0 * a * f * f - 2.0 * b * f * g + 2.0 * c * d * f, b * c + e * f + h * i);
    Product12f(a, b, c, d, e, f, g, h, i);
    TimesZero(2.0 * a * e * f - 2.0 * b * d * f, c * c + f * f + i * i - 1.0);
    Product12g(a, b, c, d, e, f, g, h, i);
    TimesZero(2.0 * f + 2.0 * a * f + 2.0 * e * f - 2.0 * f * i, a * (e * i - f * h) - b * (d * i - f * g) + c * (d * h - e * g) - 1.0);
  }

  /** Entry (1, 2) of A (2 D I + 4 skew(n)) - (2 D I - 4 skew(n)) as a polynomial in the
      entries of A. */
  lemma CayleyRelationPolynomial12(a: real, b: real, c: real, d: real, e: real, f: real, g: real, h: real, i: real)
    ensures Dot3(d, e, f,
                 ShiftedSkew(2.0 * CayleyDenominator(a, b, c, d, e, f, g, h, i), Scale(4.0, CayleyNumerators(a, b, c, d, e, f, g, h, i))).m02,
                 ShiftedSkew(2.0 * CayleyDenominator(a, b, c, d, e, f, g, h, i), Scale(4.0, CayleyNumerators(a, b, c, d, e, f, g, h, i))).m12,
                 ShiftedSkew(2.0 * CayleyDenominator(a, b, c, d, e, f, g, h, i), Scale(4.0, CayleyNumerators(a, b, c, d, e, f, g, h, i))).m22)
            - ShiftedSkew(2.0 * CayleyDenominator(a, b, c, d, e, f, g, h, i), Scale(-4.0, CayleyNumerators(a, b, c, d, e, f, g, h, i))).m12
         == -2.0 * f - 2.0 * a * f - 2.0 * e * f + 2.0 * f * i - 2.0 * a * e * f + 2.0 * a * f * i + 2.0 * b * d * f - 2.0 * c * f * g + 2.0 * e * f * i - 2.0 * f * f * h + 2.0 * a * e * f * i - 2.0 * a * f * f * h - 2.0 * b * d * f * i + 2.0 * b * f * f * g + 2.0 * c * d * f * h - 2.0 * c * e * f * g
  {}

  /** Entry (1, 2) of A (2 D I + 4 skew(n)) - (2 D I - 4 skew(n)), expanded. */
  lemma ExpandCayleyRelation12(A: Mat3)
    ensures MatMul(A, ShiftedSkew(2.0 * CayleyDenominator(A.m00, A.m01, A.m02, A.m10, A.m11, A.m12, A.m20, A.m21, A.m22), Scale(4.0, CayleyNumerators(A.m00, A.m01, A.m02, A.m10, A.m11, A.m12, A.m20, A.m21, A.m22)))).m12
            - ShiftedSkew(2.0 * CayleyDenominator(A.m00, A.m01, A.m02, A.m10, A.m11, A.m12, A.m20, A.m21, A.m22), Scale(-4.0, CayleyNumerators(A.m00, A.m01, A.m02, A.m10, A.m11, A.m12, A.m20, A.m21, A.m22))).m12
            == -2.0 * A.m12 - 2.0 * A.m00 * A.m12 - 2.0 * A.m11 * A.m12 + 2.0 * A.m12 * A.m22 - 2.0 * A.m00 * A.m11 * A.m12 + 2.0 * A.m00 * A.m12 * A.m22 + 2.0 * A.m01 * A.m10 * A.m12 - 2.0 * A.m02 * A.m12 * A.m20 + 2.0 * A.m11 * A.m12 * A.m22 - 2.0 * A.m12 * A.m12 * A.m21 + 2.0 * A.m00 * A.m11 * A.m12 * A.m22 - 2.0 * A.m00 * A.m12 * A.m12 * A.m21 - 2.0 * A.m01 * A.m10 * A.m12 * A.m22 + 2.0 * A.m01 * A.m12 * A.m12 * A.m20 + 2.0 * A.m02 * A.m10 * A.m12 * A.m21 - 2.0 * A.m02 * A.m11 * A.m12 * A.m20
  {
    CayleyRelationPolynomial12(A.m00, A.m01, A.m02, A.m10, A.m11, A.m12, A.m20, A.m21, A.m22);
  }

  // Entry (2, 0).

  lemma Product20a(a: real, b: real, c: real, d: real, e: real, f: real, g: real, h: real, i: real)
    ensures Times(-2.0 * c + 4.0 * b * f - 4.0 * c * e + 2.0 * a * b * f - 2.0 * a * c * e + 4.0 * b * f * i - 4.0 * c * e * i, a * a + d * d + g * g - 1.0) == 2.0 * c - 4.0 * b * f + 4.0 * c * e - 2.0 * a * b * f + 2.0 * a * c * e - 2.0 * a * a * c - 4.0 * b * f * i - 2.0 * c * d * d + 4.0 * c * e * i - 2.0 * c * g * g + 4.0 * a * a * b * f - 4.0 * a * a * c * e + 4.0 * b * d * d * f + 4.0 * b * f * g * g - 4.0 * c * d * d * e - 4.0 * c * e * g * g + 2.0 * a * b * d * d * f + 2.0 * a * b * f * g * g - 2.0 * a * c * d * d * e - 2.0 * a * c * e * g * g + 4.0 * a * a * b * f * i - 4.0 * a * a * c * e * i + 2.0 * a * a * a * b * f - 2.0 * a * a * a * c * e + 4.0 * b * d * d * f * i + 4.0 * b * f * g * g * i - 4.0 * c * d * d * e * i - 4.0 * c * e * g * g * i
  {}

  lemma Product20b(a: real, b: real, c: real, d: real, e: real, f: real, g: real, h: real, i: real)
    ensures Times(2.0 * f - 4.0 * a * f + 4.0 * c * d + 2.0 * a * c * d - 4.0 * a * f * i - 2.0 * a * a * f - 2.0 * b * d * f + 2.0 * c * d * e + 4.0 * c * d * i, a * b + d * e + g * h) == 2.0 * a * b * f + 2.0 * d * e * f + 2.0 * f * g * h + 4.0 * a * b * c * d - 4.0 * a * d * e * f - 4.0 * a * f * g * h - 4.0 * a * a * b * f + 4.0 * c * d * g * h + 4.0 * c * d * d * e + 2.0 * a * b * c * d * e + 4.0 * a * b * c * d * i - 2.0 * a * b * b * d * f + 2.0 * a * c * d * g * h + 2.0 * a * c * d * d * e - 4.0 * a * d * e * f * i - 4.0 * a * f * g * h * i + 2.0 * a * a * b * c * d - 4.0 * a * a * b * f * i - 2.0 * a * a * d * e * f - 2.0 * a * a * f * g * h - 2.0 * a * a * a * b * f - 2.0 * b * d * f * g * h - 2.0 * b * d * d * e * f + 2.0 * c * d * e * g * h + 4.0 * c * d * g * h * i + 4.0 * c * d * d * e * i + 2.0 * c * d * d * e * e
  {}

  lemma Product20c(a: real, b: real, c: real, d: real, e: real, f: real, g: real, h: real, i: real)
    ensures Times(2.0 + 2.0 * a + 2.0 * e + 4.0 * a * e - 4.0 * b * d + 2.0 * e * i - 2.0 * f * h - 2.0 * a * b * d + 2.0 * a * e * i + 2.0 * a * f * h + 2.0 * a * a * e + 4.0 * b * c * f - 2.0 * b * d * i - 4.0 * b * f * g - 2.0 * c * d * h + 4.0 * c * e * g - 4.0 * c * c * e, a * c + d * f + g * i) == 2.0 * a * c + 2.0 * d * f + 2.0 * g * i + 2.0 * a * c * e + 2.0 * a * d * f + 2.0 * a * g * i + 2.0 * a * a * c + 2.0 * d * e * f + 2.0 * e * g * i - 4.0 * a * b * c * d + 2.0 * a * c * e * i - 2.0 * a * c * f * h + 4.0 * a * d * e * f + 4.0 * a * e * g * i + 4.0 * a * a * c * e - 4.0 * b * d * g * i - 4.0 * b * d * d * f + 2.0 * d * e * f * i - 2.0 * d * f * f * h + 2.0 * e * g * i * i - 2.0 * f * g * h * i - 2.0 * a * b * c * d * i - 4.0 * a * b * c * f * g + 4.0 * a * b * c * c * f - 2.0 * a * b * d * g * i - 2.0 * a * b * d * d * f - 2.0 * a * c * c * d * h + 4.0 * a * c * c * e * g - 4.0 * a * c * c * c * e + 2.0 * a * d * e * f * i + 2.0 * a * d * f * f * h + 2.0 * a * e * g * i * i + 2.0 * a * f * g * h * i - 2.0 * a * a * b * c * d + 2.0 * a * a * c * e * i + 2.0 * a * a * c * f * h + 2.0 * a * a * d * e * f + 2.0 * a * a * e * g * i + 2.0 * a * a * a * c * e + 4.0 * b * c * d * f * f + 4.0 * b * c * f * g * i - 4.0 * b * d * f * f * g - 2.0 * b * d * g * i * i - 2.0 * b * d * d * f * i - 4.0 * b * f * g * g * i + 4.0 * c * d * e * f * g - 2.0 * c * d * g * h * i - 2.0 * c * d * d * f * h + 4.0 * c * e * g * g * i - 4.0 * c * c * d * e * f - 4.0 * c * c * e * g * i
  {}

  lemma Product20d(a: real, b: real, c: real, d: real, e: real, f: real, g: real, h: real, i: real)
    ensures Times(2.0 * a * d * f - 2.0 * c * d * d, b * b + e * e + h * h - 1.0) == -2.0 * a * d * f + 2.0 * c * d * d + 2.0 * a * b * b * d * f + 2.0 * a * d * e * e * f + 2.0 * a * d * f * h * h - 2.0 * b * b * c * d * d - 2.0 * c * d * d * e * e - 2.0 * c * d * d * h * h
  {}

  lemma Product20e(a: real, b: real, c: real, d: real, e: real, f: real, g: real, h: real, i: real)
    ensures Times(-4.0 * d - 2.0 * d * i + 2.0 * f * g - 4.0 * a * c * f - 2.0 * a * d * e + 2.0 * a * f * g + 2.0 * b * d * d - 2.0 * c * d * g + 4.0 * c * c * d, b * c + e * f + h * i) == -4.0 * b * c * d - 4.0 * d * e * f - 4.0 * d * h * i - 2.0 * b * c * d * i + 2.0 * b * c * f * g - 2.0 * d * e * f * i - 2.0 * d * h * i * i + 2.0 * e * f * f * g + 2.0 * f * g * h * i - 2.0 * a * b * c * d * e + 2.0 * a * b * c * f * g - 4.0 * a * b * c * c * f - 4.0 * a * c * e * f * f - 4.0 * a * c * f * h * i - 2.0 * a * d * e * h * i - 2.0 * a * d * e * e * f + 2.0 * a * e * f * f * g + 2.0 * a * f * g * h * i - 2.0 * b * c * c * d * g + 4.0 * b * c * c * c * d + 2.0 * b * d * d * e * f + 2.0 * b * d * d * h * i + 2.0 * b * b * c * d * d - 2.0 * c * d * e * f * g - 2.0 * c * d * g * h * i + 4.0 * c * c * d * e * f + 4.0 * c * c * d * h * i
  {}

  lemma Product20f(a: real, b: real, c: real, d: real, e: real, f: real, g: real, h: real, i: real)
    ensures Times(2.0 * d * h - 2.0 * e * g + 4.0 * a * c * e - 2.0 * a * e * g - 4.0 * b * c * d + 2.0 * b * d * g, c * c + f * f + i * i - 1.0) == -2.0 * d * h + 2.0 * e * g - 4.0 * a * c * e + 2.0 * a * e * g + 4.0 * b * c * d - 2.0 * b * d * g + 2.0 * c * c * d * h - 2.0 * c * c * e * g + 2.0 * d * f * f * h + 2.0 * d * h * i * i - 2.0 * e * f * f * g - 2.0 * e * g * i * i + 4.0 * a * c * e * f * f + 4.0 * a * c * e * i * i - 2.0 * a * c * c * e * g + 4.0 * a * c * c * c * e - 2.0 * a * e * f * f * g - 2.0 * a * e * g * i * i - 4.0 * b * c * d * f * f - 4.0 * b * c * d * i * i + 2.0 * b * c * c * d * g - 4.0 * b * c * c * c * d + 2.0 * b * d * f * f * g + 2.0 * b * d * g * i * i
  {}

  lemma Product20g(a: real, b: real, c: real, d: real, e: real, f: real, g: real, h: real, i: real)
    ensures Times(-2.0 * c - 2.0 * g + 2.0 * a * c - 2.0 * a * g - 4.0 * c * i + 2.0 * d * f + 2.0 * d * h, a * (e * i - f * h) - b * (d * i - f * g) + c * (d * h - e * g) - 1.0) == 2.0 * c + 2.0 * g - 2.0 * a * c + 2.0 * a * g + 4.0 * c * i - 2.0 * d * f - 2.0 * d * h - 2.0 * a * c * e * i + 2.0 * a * c * f * h - 2.0 * a * e * g * i + 2.0 * a * f * g * h + 2.0 * b * c * d * i - 2.0 * b * c * f * g + 2.0 * b * d * g * i - 2.0 * b * f * g * g - 2.0 * c * d * g * h + 2.0 * c * e * g * g - 2.0 * c * c * d * h + 2.0 * c * c * e * g - 2.0 * a * b * c * d * i + 2.0 * a * b * c * f * g + 2.0 * a * b * d * g * i - 2.0 * a * b * f * g * g - 2.0 * a * c * d * g * h + 2.0 * a * c * e * g * g - 4.0 * a * c * e * i * i + 4.0 * a * c * f * h * i + 2.0 * a * c * c * d * h - 2.0 * a * c * c * e * g + 2.0 * a * d * e * f * i + 2.0 * a * d * e * h * i - 2.0 * a * d * f * h * h - 2.0 * a * d * f * f * h + 2.0 * a * a * c * e * i - 2.0 * a * a * c * f * h - 2.0 * a * a * e * g * i + 2.0 * a * a * f * g * h + 4.0 * b * c * d * i * i - 4.0 * b * c * f * g * i + 2.0 * b * d * f * g * h + 2.0 * b * d * f * f * g - 2.0 * b * d * d * f * i - 2.0 * b * d * d * h * i - 2.0 * c * d * e * f * g - 2.0 * c * d * e * g * h + 2.0 * c * d * d * f * h + 2.0 * c * d * d * h * h - 4.0 * c * c * d * h * i + 4.0 * c * c * e * g * i
  {}

  /** Entry (2, 0) of A (2 D I + 4 skew(n)) - (2 D I - 4 skew(n)), expanded, vanishes on SO(3). */
  lemma RotationCayleyEntry20(a: real, b: real, c: real, d: real, e: real, f: real, g: real, h: real, i: real)
    requires SpecialOrthogonalEntries(a, b, c, d, e, f, g, h, i)
    ensures 4.0 * c + 2.0 * g + 2.0 * a * g - 4.0 * b * f + 4.0 * c * e + 4.0 * c * i - 4.0 * d * h + 2.0 * e * g + 2.0 * g * i + 2.0 * a * e * g + 2.0 * a * g * i - 2.0 * b * d * g - 4.0 * b * f * i + 4.0 * c * e * i - 2.0 * c * g * g - 4.0 * d * h * i + 2.0 * e * g * i + 2.0 * f * g * h + 2.0 * a * e * g * i - 2.0 * a * f * g * h - 2.0 * b * d * g * i + 2.0 * b * f * g * g + 2.0 * c * d * g * h - 2.0 * c * e * g * g == 0.0
  {
    Product20a(a, b, c, d, e, f, g, h, i);
    TimesZero(-2.0 * c + 4.0 * b * f - 4.0 * c * e + 2.0 * a * b * f - 2.0 * a * c * e + 4.0 * b * f * i - 4.0 * c * e * i, a * a + d * d + g * g - 1.0);
    Product20b(a, b, c, d, e, f, g, h, i);
    TimesZero(2.0 * f - 4.0 * a * f + 4.0 * c * d + 2.0 * a * c * d - 4.0 * a * f * i - 2.0 * a * a * f - 2.0 * b * d * f + 2.0 * c * d * e + 4.0 * c * d * i, a * b + d * e + g * h);
    Product20c(a, b, c, d, e, f, g, h, i);
    TimesZero(2.0 + 2.0 * a + 2.0 * e + 4.0 * a * e - 4.0 * b * d + 2.0 * e * i - 2.0 * f * h - 2.0 * a * b * d + 2.0 * a * e * i + 2.0 * a * f * h + 2.0 * a * a * e + 4.0 * b * c * f - 2.0 * b * d * i - 4.0 * b * f * g - 2.0 * c * d * h + 4.0 * c * e * g - 4.0 * c * c * e, a * c + d * f + g * i);
    Product20d(a, b, c, d, e, f, g, h, i);
    TimesZero(2.0 * a * d * f - 2.0 * c * d * d, b * b + e * e + h * h - 1.0);
    Product20e(a, b, c, d, e, f, g, h, i);
    TimesZero(-4.0 * d - 2.0 * d * i + 2.0 * f * g - 4.0 * a * c * f - 2.0 * a * d * e + 2.0 * a * f * g + 2.0 * b * d * d - 2.0 * c * d * g + 4.0 * c * c * d, b * c + e * f + h * i);
    Product20f(a, b, c, d, e, f, g, h, i);
    TimesZero(2.0 * d * h - 2.0 * e * g + 4.0 * a * c * e - 2.0 * a * e * g - 4.0 * b * c * d + 2.0 * b * d * g, c * c + f * f + i * i - 1.0);
    Product20g(a, b, c, d, e, f, g, h, i);
    TimesZero(-2.0 * c - 2.0 * g + 2.0 * a * c - 2.0 * a * g - 4.0 * c * i + 2.0 * d * f + 2.0 * d * h, a * (e * i - f * h) - b * (d * i - f * g) + c * (d * h - e * g) - 1.0);
  }

  /** Entry (2, 0) of A (2 D I + 4 skew(n)) - (2 D I - 4 skew(n)) as a polynomial in the
      entries of A. */
  lemma CayleyRelationPolynomial20(a: real, b: real, c: real, d: real, e: real, f: real, g: real, h: real, i: real)
    ensures Dot3(g, h, i,
                 ShiftedSkew(2.0 * CayleyDenominator(a, b, c, d, e, f, g, h, i), Scale(4.0, CayleyNumerators(a, b, c, d, e, f, g, h, i))).m00,
                 ShiftedSkew(2.0 * CayleyDenominator(a, b, c, d, e, f, g, h, i), Scale(4.0, CayleyNumerators(a, b, c, d, e, f, g, h, i))).m10,
                 ShiftedSkew(2.0 * CayleyDenominator(a, b, c, d, e, f, g, h, i), Scale(4.0, CayleyNumerators(a, b, c, d, e, f, g, h, i))).m20)
            - ShiftedSkew(2.0 * CayleyDenominator(a, b, c, d, e, f, g, h, i), Scale(-4.0, CayleyNumerators(a, b, c, d, e, f, g, h, i))).m20
         == 4.0 * c + 2.0 * g + 2.0 * a * g - 4.0 * b * f + 4.0 * c * e + 4.0 * c * i - 4.0 * d * h + 2.0 * e * g + 2.0 * g * i + 2.0 * a * e * g + 2.0 * a * g * i - 2.0 * b * d * g - 4.0 * b * f * i + 4.0 * c * e * i - 2.0 * c * g * g - 4.0 * d * h * i + 2.0 * e * g * i + 2.0 * f * g * h + 2.0 * a * e * g * i - 2.0 * a * f * g * h - 2.0 * b * d * g * i + 2.0 * b * f * g * g + 2.0 * c * d * g * h - 2.0 * c * e * g * g
  {}

  /** Entry (2, 0) of A (2 D I + 4 skew(n)) - (2 D I - 4 skew(n)), expanded. */
  lemma ExpandCayleyRelation20(A: Mat3)
    ensures MatMul(A, ShiftedSkew(2.0 * CayleyDenominator(A.m00, A.m01, A.m02, A.m10, A.m11, A.m12, A.m20, A.m21, A.m22), Scale(4.0, CayleyNumerators(A.m00, A.m01, A.m02, A.m10, A.m11, A.m12, A.m20, A.m21, A.m22)))).m20
            - ShiftedSkew(2.0 * CayleyDenominator(A.m00, A.m01, A.m02, A.m10, A.m11, A.m12, A.m20, A.m21, A.m22), Scale(-4.0, CayleyNumerators(A.m00, A.m01, A.m02, A.m10, A.m11, A.m12, A.m20, A.m21, A.m22))).m20
            == 4.0 * A.m02 + 2.0 * A.m20 + 2.0 * A.m00 * A.m20 - 4.0 * A.m01 * A.m12 + 4.0 * A.m02 * A.m11 + 4.0 * A.m02 * A.m22 - 4.0 * A.m10 * A.m21 + 2.0 * A.m11 * A.m20 + 2.0 * A.m20 * A.m22 + 2.0 * A.m00 * A.m11 * A.m20 + 2.0 * A.m00 * A.m20 * A.m22 - 2.0 * A.m01 * A.m10 * A.m20 - 4.0 * A.m01 * A.m12 * A.m22 + 4.0 * A.m02 * A.m11 * A.m22 - 2.0 * A.m02 * A.m20 * A.m20 - 4.0 * A.m10 * A.m21 * A.m22 + 2.0 * A.m11 * A.m20 * A.m22 + 2.0 * A.m12 * A.m20 * A.m21 + 2.0 * A.m00 * A.m11 * A.m20 * A.m22 - 2.0 * A.m00 * A.m12 * A.m20 * A.m21 - 2.0 * A.m01 * A.m10 * A.m20 * A.m22 + 2.0 * A.m01 * A.m12 * A.m20 * A.m20 + 2.0 * A.m02 * A.m10 * A.m20 * A.m21 - 2.0 * A.m02 * A.m11 * A.m20 * A.m20
  {
    CayleyRelationPolynomial20(A.m00, A.m01, A.m02, A.m10, A.m11, A.m12, A.m20, A.m21, A.m22);
  }

  // Entry (2, 1).

  lemma Product21a(a: real, b: real, c: real, d: real, e: real, f: real, g: real, h: real, i: real)
    ensures Times(-4.0 * f + 4.0 * b * d * f - 4.0 * c * d * e - 2.0 * e * h * i + 2.0 * f * h * h, a * a + d * d + g * g - 1.0) == 4.0 * f - 4.0 * a * a * f - 4.0 * b * d * f + 4.0 * c * d * e - 4.0 * d * d * f + 2.0 * e * h * i - 4.0 * f * g * g - 2.0 * f * h * h + 4.0 * a * a * b * d * f - 4.0 * a * a * c * d * e - 2.0 * a * a * e * h * i + 2.0 * a * a * f * h * h + 4.0 * b * d * f * g * g + 4.0 * b * d * d * d * f - 4.0 * c * d * e * g * g - 4.0 * c * d * d * d * e - 2.0 * d * d * e * h * i + 2.0 * d * d * f * h * h - 2.0 * e * g * g * h * i + 2.0 * f * g * g * h * h
  {}

  lemma Product21b(a: real, b: real, c: real, d: real, e: real, f: real, g: real, h: real, i: real)
    ensures Times(-2.0 * c + 4.0 * b * f - 4.0 * c * e + 4.0 * a * b * f - 2.0 * a * c * e - 4.0 * a * d * f + 2.0 * b * e * f + 4.0 * b * f * i + 4.0 * c * d * d - 4.0 * c * e * i - 2.0 * c * e * e + 2.0 * d * e * f + 2.0 * d * h * i + 2.0 * e * g * i - 2.0 * f * g * h, a * b + d * e + g * h) == -2.0 * a * b * c - 2.0 * c * d * e - 2.0 * c * g * h - 4.0 * a * b * c * e + 4.0 * a * b * b * f + 4.0 * b * d * e * f + 4.0 * b * f * g * h - 4.0 * c * d * e * e - 4.0 * c * e * g * h + 4.0 * a * b * c * d * d - 4.0 * a * b * c * e * i - 2.0 * a * b * c * e * e + 6.0 * a * b * d * e * f + 2.0 * a * b * d * h * i + 2.0 * a * b * e * g * i + 2.0 * a * b * f * g * h + 2.0 * a * b * b * e * f + 4.0 * a * b * b * f * i - 2.0 * a * c * d * e * e - 2.0 * a * c * e * g * h - 4.0 * a * d * f * g * h - 4.0 * a * d * d * e * f - 2.0 * a * a * b * c * e - 4.0 * a * a * b * d * f + 4.0 * a * a * b * b * f + 4.0 * b * d * e * f * i + 2.0 * b * d * e * e * f + 2.0 * b * e * f * g * h + 4.0 * b * f * g * h * i - 4.0 * c * d * e * e * i - 2.0 * c * d * e * e * e + 4.0 * c * d * d * g * h + 4.0 * c * d * d * d * e - 4.0 * c * e * g * h * i - 2.0 * c * e * e * g * h + 2.0 * d * e * e * g * i + 2.0 * d * g * h * h * i + 2.0 * d * d * e * h * i + 2.0 * d * d * e * e * f + 2.0 * e * g * g * h * i - 2.0 * f * g * g * h * h
  {}

  lemma Product21c(a: real, b: real, c: real, d: real, e: real, f: real, g: real, h: real, i: real)
    ensures Times(4.0 * d - 2.0 * a * b * e + 4.0 * a * d * e - 4.0 * b * d * d - 2.0 * b * f * h + 4.0 * b * f * f - 4.0 * c * e * f + 2.0 * c * e * h - 2.0 * d * e * e - 2.0 * d * h * h, a * c + d * f + g * i) == 4.0 * a * c * d + 4.0 * d * g * i + 4.0 * d * d * f - 4.0 * a * b * c * d * d - 2.0 * a * b * c * f * h + 4.0 * a * b * c * f * f - 2.0 * a * b * d * e * f - 2.0 * a * b * e * g * i - 2.0 * a * c * d * e * e - 2.0 * a * c * d * h * h - 4.0 * a * c * c * e * f + 2.0 * a * c * c * e * h + 4.0 * a * d * e * g * i + 4.0 * a * d * d * e * f - 2.0 * a * a * b * c * e + 4.0 * a * a * c * d * e - 2.0 * b * d * f * f * h + 4.0 * b * d * f * f * f - 4.0 * b * d * d * g * i - 4.0 * b * d * d * d * f - 2.0 * b * f * g * h * i + 4.0 * b * f * f * g * i + 2.0 * c * d * e * f * h - 4.0 * c * d * e * f * f - 4.0 * c * e * f * g * i + 2.0 * c * e * g * h * i - 2.0 * d * e * e * g * i - 2.0 * d * g * h * h * i - 2.0 * d * d * e * e * f - 2.0 * d * d * f * h * h
  {}

  lemma Product21d(a: real, b: real, c: real, d: real, e: real, f: real, g: real, h: real, i: real)
    ensures Times(-4.0 * a * f + 4.0 * c * d + 4.0 * a * c * d - 2.0 * a * e * f - 4.0 * a * f * i - 4.0 * a * a * f + 2.0 * c * d * e + 4.0 * c * d * i, b * b + e * e + h * h - 1.0) == 4.0 * a * f - 4.0 * c * d - 4.0 * a * c * d + 2.0 * a * e * f + 4.0 * a * f * i + 4.0 * a * a * f - 2.0 * c * d * e - 4.0 * c * d * i - 4.0 * a * b * b * f - 4.0 * a * e * e * f - 4.0 * a * f * h * h + 4.0 * b * b * c * d + 4.0 * c * d * e * e + 4.0 * c * d * h * h + 4.0 * a * b * b * c * d - 2.0 * a * b * b * e * f - 4.0 * a * b * b * f * i + 4.0 * a * c * d * e * e + 4.0 * a * c * d * h * h - 2.0 * a * e * f * h * h - 4.0 * a * e * e * f * i - 2.0 * a * e * e * e * f - 4.0 * a * f * h * h * i - 4.0 * a * a * b * b * f - 4.0 * a * a * e * e * f - 4.0 * a * a * f * h * h + 2.0 * b * b * c * d * e + 4.0 * b * b * c * d * i + 2.0 * c * d * e * h * h + 4.0 * c * d * e * e * i + 2.0 * c * d * e * e * e + 4.0 * c * d * h * h * i
  {}

  lemma Product21e(a: real, b: real, c: real, d: real, e: real, f: real, g: real, h: real, i: real)
    ensures Times(2.0 + 2.0 * a + 4.0 * a * e - 4.0 * b * d - 4.0 * a * b * d + 2.0 * a * e * i + 2.0 * a * e * e + 4.0 * a * f * h - 4.0 * a * f * f + 4.0 * a * a * e - 2.0 * b * d * e - 2.0 * b * d * i - 2.0 * b * f * g + 4.0 * c * d * f - 4.0 * c * d * h + 2.0 * c * e * g, b * c + e * f + h * i) == 2.0 * b * c + 2.0 * e * f + 2.0 * h * i + 2.0 * a * b * c + 2.0 * a * e * f + 2.0 * a * h * i + 4.0 * a * b * c * e + 4.0 * a * e * h * i + 4.0 * a * e * e * f - 4.0 * b * d * e * f - 4.0 * b * d * h * i - 4.0 * b * b * c * d + 2.0 * a * b * c * e * i + 2.0 * a * b * c * e * e + 4.0 * a * b * c * f * h - 4.0 * a * b * c * f * f - 4.0 * a * b * d * e * f - 4.0 * a * b * d * h * i - 4.0 * a * b * b * c * d + 4.0 * a * e * f * f * h - 4.0 * a * e * f * f * f + 2.0 * a * e * h * i * i + 2.0 * a * e * e * f * i + 2.0 * a * e * e * h * i + 2.0 * a * e * e * e * f + 4.0 * a * f * h * h * i - 4.0 * a * f * f * h * i + 4.0 * a * a * b * c * e + 4.0 * a * a * e * h * i + 4.0 * a * a * e * e * f + 4.0 * b * c * c * d * f - 4.0 * b * c * c * d * h + 2.0 * b * c * c * e * g - 2.0 * b * d * e * f * i - 2.0 * b * d * e * h * i - 2.0 * b * d * e * e * f - 2.0 * b * d * h * i * i - 2.0 * b * e * f * f * g - 2.0 * b * f * g * h * i - 2.0 * b * b * c * d * e - 2.0 * b * b * c * d * i - 2.0 * b * b * c * f * g - 4.0 * c * d * e * f * h + 4.0 * c * d * e * f * f + 4.0 * c * d * f * h * i - 4.0 * c * d * h * h * i + 2.0 * c * e * g * h * i + 2.0 * c * e * e * f * g
  {}

  lemma Product21f(a: real, b: real, c: real, d: real, e: real, f: real, g: real, h: real, i: real)
    ensures Times(4.0 * a * e * f - 2.0 * a * e * h - 4.0 * b * d * f + 2.0 * b * d * h, c * c + f * f + i * i - 1.0) == -4.0 * a * e * f + 2.0 * a * e * h + 4.0 * b * d * f - 2.0 * b * d * h + 4.0 * a * c * c * e * f - 2.0 * a * c * c * e * h + 4.0 * a * e * f * i * i - 2.0 * a * e * f * f * h + 4.0 * a * e * f * f * f - 2.0 * a * e * h * i * i - 4.0 * b * c * c * d * f + 2.0 * b * c * c * d * h - 4.0 * b * d * f * i * i + 2.0 * b * d * f * f * h - 4.0 * b * d * f * f * f + 2.0 * b * d * h * i * i
  {}

  lemma Product21g(a: real, b: real, c: real, d: real, e: real, f: real, g: real, h: real, i: real)
    ensures Times(-2.0 * h - 2.0 * a * h + 2.0 * b * c - 4.0 * d * g + 2.0 * e * f - 2.0 * e * h - 4.0 * f * i, a * (e * i - f * h) - b * (d * i - f * g) + c * (d * h - e * g) - 1.0) == 2.0 * h + 2.0 * a * h - 2.0 * b * c + 4.0 * d * g - 2.0 * e * f + 2.0 * e * h + 4.0 * f * i - 2.0 * a * e * h * i + 2.0 * a * f * h * h + 2.0 * b * d * h * i - 2.0 * b * f * g * h - 2.0 * c * d * h * h + 2.0 * c * e * g * h + 2.0 * a * b * c * e * i - 2.0 * a * b * c * f * h + 2.0 * a * b * d * h * i - 2.0 * a * b * f * g * h - 2.0 * a * c * d * h * h + 2.0 * a * c * e * g * h - 4.0 * a * d * e * g * i + 4.0 * a * d * f * g * h + 2.0 * a * e * f * h * h - 4.0 * a * e * f * i * i - 2.0 * a * e * f * f * h + 2.0 * a * e * e * f * i - 2.0 * a * e * e * h * i + 4.0 * a * f * f * h * i - 2.0 * a * a * e * h * i + 2.0 * a * a * f * h * h + 2.0 * b * c * c * d * h - 2.0 * b * c * c * e * g - 2.0 * b * d * e * f * i + 2.0 * b * d * e * h * i - 4.0 * b * d * f * g * g + 4.0 * b * d * f * i * i + 4.0 * b * d * d * g * i - 2.0 * b * e * f * g * h + 2.0 * b * e * f * f * g - 4.0 * b * f * f * g * i - 2.0 * b * b * c * d * i + 2.0 * b * b * c * f * g + 2.0 * c * d * e * f * h + 4.0 * c * d * e * g * g - 2.0 * c * d * e * h * h - 4.0 * c * d * f * h * i - 4.0 * c * d * d * g * h + 4.0 * c * e * f * g * i - 2.0 * c * e * e * f * g + 2.0 * c * e * e * g * h
  {}

  /** Entry (2, 1) of A (2 D I + 4 skew(n)) - (2 D I - 4 skew(n)), expanded, vanishes on SO(3). */
  lemma RotationCayleyEntry21(a: real, b: real, c: real, d: real, e: real, f: real, g: real, h: real, i: real)
    requires SpecialOrthogonalEntries(a, b, c, d, e, f, g, h, i)
    ensures 4.0 * f + 2.0 * h + 4.0 * a * f + 2.0 * a * h - 4.0 * c * d + 4.0 * d * g + 2.0 * e * h + 4.0 * f * i + 2.0 * h * i + 2.0 * a * e * h + 4.0 * a * f * i + 2.0 * a * h * i - 2.0 * b * d * h - 4.0 * c * d * i - 2.0 * c * g * h + 4.0 * d * g * i + 2.0 * e * h * i - 4.0 * f * g * g - 2.0 * f * h * h + 2.0 * a * e * h * i - 2.0 * a * f * h * h - 2.0 * b * d * h * i + 2.0 * b * f * g * h + 2.0 * c * d * h * h - 2.0 * c * e * g * h == 0.0
  {
    Product21a(a, b, c, d, e, f, g, h, i);
    TimesZero(-4.0 * f + 4.0 * b * d * f - 4.0 * c * d * e - 2.0 * e * h * i + 2.0 * f * h * h, a * a + d * d + g * g - 1.0);
    Product21b(a, b, c, d, e, f, g, h, i);
    TimesZero(-2.0 * c + 4.0 * b * f - 4.0 * c * e + 4.0 * a * b * f - 2.0 * a * c * e - 4.0 * a * d * f + 2.0 * b * e * f + 4.0 * b * f * i + 4.0 * c * d * d - 4.0 * c * e * i - 2.0 * c * e * e + 2.0 * d * e * f + 2.0 * d * h * i + 2.0 * e * g * i - 2.0 * f * g * h, a * b + d * e + g * h);
    Product21c(a, b, c, d, e, f, g, h, i);
    TimesZero(4.0 * d - 2.0 * a * b * e + 4.0 * a * d * e - 4.0 * b * d * d - 2.0 * b * f * h + 4.0 * b * f * f - 4.0 * c * e * f + 2.0 * c * e * h - 2.0 * d * e * e - 2.0 * d * h * h, a * c + d * f + g * i);
    Product21d(a, b, c, d, e, f, g, h, i);
    TimesZero(-4.0 * a * f + 4.0 * c * d + 4.0 * a * c * d - 2.0 * a * e * f - 4.0 * a * f * i - 4.0 * a * a * f + 2.0 * c * d * e + 4.0 * c * d * i, b * b + e * e + h * h - 1.0);
    Product21e(a, b, c, d, e, f, g, h, i);
    TimesZero(2.0 + 2.0 * a + 4.0 * a * e - 4.0 * b * d - 4.0 * a * b * d + 2.0 * a * e * i + 2.0 * a * e * e + 4.0 * a * f * h - 4.0 * a * f * f + 4.0 * a * a * e - 2.0 * b * d * e - 2.0 * b * d * i - 2.0 * b * f * g + 4.0 * c * d * f - 4.0 * c * d * h + 2.0 * c * e * g, b * c + e * f + h * i);
    Product21f(a, b, c, d, e, f, g, h, i);
    TimesZero(4.0 * a * e * f - 2.0 * a * e * h - 4.0 * b * d * f + 2.0 * b * d * h, c * c + f * f + i * i - 1.0);
    Product21g(a, b, c, d, e, f, g, h, i);
    TimesZero(-2.0 * h - 2.0 * a * h + 2.0 * b * c - 4.0 * d * g + 2.0 * e * f - 2.0 * e * h - 4.0 * f * i, a * (e * i - f * h) - b * (d * i - f * g) + c * (d * h - e * g) - 1.0);
  }

  /** Entry (2, 1) of A (2 D I + 4 skew(n)) - (2 D I - 4 skew(n)) as a polynomial in the
      entries of A. */
  lemma CayleyRelationPolynomial21(a: real, b: real, c: real, d: real, e: real, f: real, g: real, h: real, i: real)
    ensures Dot3(g, h, i,
                 ShiftedSkew(2.0 * CayleyDenominator(a, b, c, d, e, f, g, h, i), Scale(4.0, CayleyNumerators(a, b, c, d, e, f, g, h, i))).m01,
                 ShiftedSkew(2.0 * CayleyDenominator(a, b, c, d, e, f, g, h, i), Scale(4.0, CayleyNumerators(a, b, c, d, e, f, g, h, i))).m11,
                 ShiftedSkew(2.0 * CayleyDenominator(a, b, c, d, e, f, g, h, i), Scale(4.0, CayleyNumerators(a, b, c, d, e, f, g, h, i))).m21)
            - ShiftedSkew(2.0 * CayleyDenominator(a, b, c, d, e, f, g, h, i), Scale(-4.0, CayleyNumerators(a, b, c, d, e, f, g, h, i))).m21
         == 4.0 * f + 2.0 * h + 4.0 * a * f + 2.0 * a * h - 4.0 * c * d + 4.0 * d * g + 2.0 * e * h + 4.0 * f * i + 2.0 * h * i + 2.0 * a * e * h + 4.0 * a * f * i + 2.0 * a * h * i - 2.0 * b * d * h - 4.0 * c * d * i - 2.0 * c * g * h + 4.0 * d * g * i + 2.0 * e * h * i - 4.0 * f * g * g - 2.0 * f * h * h + 2.0 * a * e * h * i - 2.0 * a * f * h * h - 2.0 * b * d * h * i + 2.0 * b * f * g * h + 2.0 * c * d * h * h - 2.0 * c * e * g * h
  {}

  /** Entry (2, 1) of A (2 D I + 4 skew(n)) - (2 D I - 4 skew(n)), expanded. */
  lemma ExpandCayleyRelation21(A: Mat3)
    ensures MatMul(A, ShiftedSkew(2.0 * CayleyDenominator(A.m00, A.m01, A.m02, A.m10, A.m11, A.m12, A.m20, A.m21, A.m22), Scale(4.0, CayleyNumerators(A.m00, A.m01, A.m02, A.m10, A.m11, A.m12, A.m20, A.m21, A.m22)))).m21
            - ShiftedSkew(2.0 * CayleyDenominator(A.m00, A.m01, A.m02, A.m10, A.m11, A.m12, A.m20, A.m21, A.m22), Scale(-4.0, CayleyNumerators(A.m00, A.m01, A.m02, A.m10, A.m11, A.m12, A.m20, A.m21, A.m22))).m21
            == 4.0 * A.m12 + 2.0 * A.m21 + 4.0 * A.m00 * A.m12 + 2.0 * A.m00 * A.m21 - 4.0 * A.m02 * A.m10 + 4.0 * A.m10 * A.m20 + 2.0 * A.m11 * A.m21 + 4.0 * A.m12 * A.m22 + 2.0 * A.m21 * A.m22 + 2.0 * A.m00 * A.m11 * A.m21 + 4.0 * A.m00 * A.m12 * A.m22 + 2.0 * A.m00 * A.m21 * A.m22 - 2.0 * A.m01 * A.m10 * A.m21 - 4.0 * A.m02 * A.m10 * A.m22 - 2.0 * A.m02 * A.m20 * A.m21 + 4.0 * A.m10 * A.m20 * A.m22 + 2.0 * A.m11 * A.m21 * A.m22 - 4.0 * A.m12 * A.m20 * A.m20 - 2.0 * A.m12 * A.m21 * A.m21 + 2.0 * A.m00 * A.m11 * A.m21 * A.m22 - 2.0 * A.m00 * A.m12 * A.m21 * A.m21 - 2.0 * A.m01 * A.m10 * A.m21 * A.m22 + 2.0 * A.m01 * A.m12 * A.m20 * A.m21 + 2.0 * A.m02 * A.m10 * A.m21 * A.m21 - 2.0 * A.m02 * A.m11 * A.m20 * A.m21
  {
    CayleyRelationPolynomial21(A.m00, A.m01, A.m02, A.m10, A.m11, A.m12, A.m20, A.m21, A.m22);
  }

  // Entry (2, 2).

  lemma Product22a(a: real, b: real, c: real, d: real, e: real, f: real, g: real, h: real, i: real)
    ensures Times(-2.0 * e * i + 2.0 * f * h - 2.0 * e * i * i + 2.0 * f * h * i, a * a + d * d + g * g - 1.0) == 2.0 * e * i - 2.0 * f * h + 2.0 * e * i * i - 2.0 * f * h * i - 2.0 * a * a * e * i + 2.0 * a * a * f * h - 2.0 * d * d * e * i + 2.0 * d * d * f * h - 2.0 * e * g * g * i + 2.0 * f * g * g * h - 2.0 * a * a * e * i * i + 2.0 * a * a * f * h * i - 2.0 * d * d * e * i * i + 2.0 * d * d * f * h * i - 2.0 * e * g * g * i * i + 2.0 * f * g * g * h * i
  {}

  lemma Product22b(a: real, b: real, c: real, d: real, e: real, f: real, g: real, h: real, i: real)
    ensures Times(2.0 * b * i - 2.0 * c * h + 2.0 * d * i - 2.0 * f * g + 2.0 * b * i * i - 2.0 * c * h * i + 2.0 * d * i * i - 2.0 * f * g * i, a * b + d * e + g * h) == -2.0 * a * b * c * h + 2.0 * a * b * d * i - 2.0 * a * b * f * g + 2.0 * a * b * b * i + 2.0 * b * d * e * i + 2.0 * b * g * h * i - 2.0 * c * d * e * h - 2.0 * c * g * h * h - 2.0 * d * e * f * g + 2.0 * d * g * h * i + 2.0 * d * d * e * i - 2.0 * f * g * g * h - 2.0 * a * b * c * h * i + 2.0 * a * b * d * i * i - 2.0 * a * b * f * g * i + 2.0 * a * b * b * i * i + 2.0 * b * d * e * i * i + 2.0 * b * g * h * i * i - 2.0 * c * d * e * h * i - 2.0 * c * g * h * h * i - 2.0 * d * e * f * g * i + 2.0 * d * g * h * i * i + 2.0 * d * d * e * i * i - 2.0 * f * g * g * h * i
  {}

  lemma Product22c(a: real, b: real, c: real, d: real, e: real, f: real, g: real, h: real, i: real)
    ensures Times(-2.0 * c + 2.0 * b * f - 2.0 * c * e - 2.0 * d * h + 2.0 * e * g - 2.0 * b * e * f + 2.0 * b * f * i - 2.0 * b * h * i - 2.0 * c * e * i + 2.0 * c * e * e + 2.0 * c * h * h - 2.0 * d * h * i + 2.0 * e * g * i, a * c + d * f + g * i) == -2.0 * a * c * c - 2.0 * c * d * f - 2.0 * c * g * i + 2.0 * a * b * c * f - 2.0 * a * c * d * h + 2.0 * a * c * e * g - 2.0 * a * c * c * e + 2.0 * b * d * f * f + 2.0 * b * f * g * i - 2.0 * c * d * e * f - 2.0 * c * e * g * i + 2.0 * d * e * f * g - 2.0 * d * g * h * i - 2.0 * d * d * f * h + 2.0 * e * g * g * i - 2.0 * a * b * c * e * f + 2.0 * a * b * c * f * i - 2.0 * a * b * c * h * i - 2.0 * a * c * d * h * i + 2.0 * a * c * e * g * i - 2.0 * a * c * c * e * i + 2.0 * a * c * c * e * e + 2.0 * a * c * c * h * h - 2.0 * b * d * e * f * f - 2.0 * b * d * f * h * i + 2.0 * b * d * f * f * i - 2.0 * b * e * f * g * i + 2.0 * b * f * g * i * i - 2.0 * b * g * h * i * i - 2.0 * c * d * e * f * i + 2.0 * c * d * e * e * f + 2.0 * c * d * f * h * h - 2.0 * c * e * g * i * i + 2.0 * c * e * e * g * i + 2.0 * c * g * h * h * i + 2.0 * d * e * f * g * i - 2.0 * d * g * h * i * i - 2.0 * d * d * f * h * i + 2.0 * e * g * g * i * i
  {}

  lemma Product22d(a: real, b: real, c: real, d: real, e: real, f: real, g: real, h: real, i: real)
    ensures Times(-2.0 * a * i + 2.0 * c * g - 2.0 * a * c * c - 2.0 * a * i * i - 2.0 * c * d * f, b * b + e * e + h * h - 1.0) == 2.0 * a * i - 2.0 * c * g + 2.0 * a * c * c + 2.0 * a * i * i + 2.0 * c * d * f - 2.0 * a * b * b * i - 2.0 * a * e * e * i - 2.0 * a * h * h * i + 2.0 * b * b * c * g + 2.0 * c * e * e * g + 2.0 * c * g * h * h - 2.0 * a * b * b * c * c - 2.0 * a * b * b * i * i - 2.0 * a * c * c * e * e - 2.0 * a * c * c * h * h - 2.0 * a * e * e * i * i - 2.0 * a * h * h * i * i - 2.0 * b * b * c * d * f - 2.0 * c * d * e * e * f - 2.0 * c * d * f * h * h
  {}

  lemma Product22e(a: real, b: real, c: real, d: real, e: real, f: real, g: real, h: real, i: real)
    ensures Times(-2.0 * a * f + 2.0 * a * h - 2.0 * b * g + 2.0 * c * d + 2.0 * a * b * c - 2.0 * a * f * i + 2.0 * a * h * i + 2.0 * b * d * f + 2.0 * c * d * i, b * c + e * f + h * i) == -2.0 * a * b * c * f + 2.0 * a * b * c * h + 2.0 * a * e * f * h - 2.0 * a * e * f * f - 2.0 * a * f * h * i + 2.0 * a * h * h * i + 2.0 * b * c * c * d - 2.0 * b * e * f * g - 2.0 * b * g * h * i - 2.0 * b * b * c * g + 2.0 * c * d * e * f + 2.0 * c * d * h * i + 2.0 * a * b * c * e * f - 2.0 * a * b * c * f * i + 4.0 * a * b * c * h * i + 2.0 * a * b * b * c * c + 2.0 * a * e * f * h * i - 2.0 * a * e * f * f * i - 2.0 * a * f * h * i * i + 2.0 * a * h * h * i * i + 2.0 * b * c * c * d * i + 2.0 * b * d * e * f * f + 2.0 * b * d * f * h * i + 2.0 * b * b * c * d * f + 2.0 * c * d * e * f * i + 2.0 * c * d * h * i * i
  {}

  lemma Product22f(a: real, b: real, c: real, d: real, e: real, f: real, g: real, h: real, i: real)
    ensures Times(2.0 + 2.0 * a * e - 2.0 * b * d + 2.0 * a * f * h - 2.0 * b * f * g - 2.0 * c * d * h + 2.0 * c * e * g, c * c + f * f + i * i - 1.0) == -2.0 - 2.0 * a * e + 2.0 * b * d + 2.0 * c * c + 2.0 * f * f + 2.0 * i * i - 2.0 * a * f * h + 2.0 * b * f * g + 2.0 * c * d * h - 2.0 * c * e * g + 2.0 * a * c * c * e + 2.0 * a * e * f * f + 2.0 * a * e * i * i - 2.0 * b * c * c * d - 2.0 * b * d * f * f - 2.0 * b * d * i * i + 2.0 * a * c * c * f * h + 2.0 * a * f * h * i * i + 2.0 * a * f * f * f * h - 2.0 * b * c * c * f * g - 2.0 * b * f * g * i * i - 2.0 * b * f * f * f * g - 2.0 * c * d * f * f * h - 2.0 * c * d * h * i * i + 2.0 * c * e * f * f * g + 2.0 * c * e * g * i * i - 2.0 * c * c * c * d * h + 2.0 * c * c * c * e * g
  {}

  lemma Product22g(a: real, b: real, c: real, d: real, e: real, f: real, g: real, h: real, i: real)
    ensures Times(2.0 * a + 2.0 * e + 2.0 * a * i + 2.0 * c * c + 2.0 * e * i + 2.0 * f * f, a * (e * i - f * h) - b * (d * i - f * g) + c * (d * h - e * g) - 1.0) == -2.0 * a - 2.0 * e - 2.0 * a * i - 2.0 * c * c - 2.0 * e * i - 2.0 * f * f - 2.0 * a * b * d * i + 2.0 * a * b * f * g + 2.0 * a * c * d * h - 2.0 * a * c * e * g - 2.0 * a * e * f * h + 2.0 * a * e * e * i + 2.0 * a * a * e * i - 2.0 * a * a * f * h - 2.0 * b * d * e * i + 2.0 * b * e * f * g + 2.0 * c * d * e * h - 2.0 * c * e * e * g - 2.0 * a * b * d * i * i + 2.0 * a * b * f * g * i + 2.0 * a * c * d * h * i - 2.0 * a * c * e * g * i + 2.0 * a * c * c * e * i - 2.0 * a * c * c * f * h - 2.0 * a * e * f * h * i + 2.0 * a * e * f * f * i + 2.0 * a * e * e * i * i - 2.0 * a * f * f * f * h + 2.0 * a * a * e * i * i - 2.0 * a * a * f * h * i - 2.0 * b * c * c * d * i + 2.0 * b * c * c * f * g - 2.0 * b * d * e * i * i - 2.0 * b * d * f * f * i + 2.0 * b * e * f * g * i + 2.0 * b * f * f * f * g + 2.0 * c * d * e * h * i + 2.0 * c * d * f * f * h - 2.0 * c * e * f * f * g - 2.0 * c * e * e * g * i + 2.0 * c * c * c * d * h - 2.0 * c * c * c * e * g
  {}

  /** Entry (2, 2) of A (2 D I + 4 skew(n)) - (2 D I - 4 skew(n)), expanded, vanishes on SO(3). */
  lemma RotationCayleyEntry22(a: real, b: real, c: real, d: real, e: real, f: real, g: real, h: real, i: real)
    requires SpecialOrthogonalEntries(a, b, c, d, e, f, g, h, i)
    ensures -2.0 - 2.0 * a - 2.0 * e - 2.0 * a * e + 2.0 * b * d - 2.0 * c * g - 2.0 * f * h + 2.0 * i * i - 2.0 * a * f * h + 2.0 * a * i * i + 2.0 * b * f * g + 2.0 * c * d * h - 2.0 * c * e * g - 2.0 * c * g * i + 2.0 * e * i * i - 2.0 * f * h * i + 2.0 * a * e * i * i - 2.0 * a * f * h * i - 2.0 * b * d * i * i + 2.0 * b * f * g * i + 2.0 * c * d * h * i - 2.0 * c * e * g * i == 0.0
  {
    Product22a(a, b, c, d, e, f, g, h, i);
    TimesZero(-2.0 * e * i + 2.0 * f * h - 2.0 * e * i * i + 2.0 * f * h * i, a * a + d * d + g * g - 1.0);
    Product22b(a, b, c, d, e, f, g, h, i);
    TimesZero(2.0 * b * i - 2.0 * c * h + 2.0 * d * i - 2.0 * f * g + 2.0 * b * i * i - 2.0 * c * h * i + 2.0 * d * i * i - 2.0 * f * g * i, a * b + d * e + g * h);
    Product22c(a, b, c, d, e, f, g, h, i);
    TimesZero(-2.0 * c + 2.0 * b * f - 2.0 * c * e - 2.0 * d * h + 2.0 * e * g - 2.0 * b * e * f + 2.0 * b * f * i - 2.0 * b * h * i - 2.0 * c * e * i + 2.0 * c * e * e + 2.0 * c * h * h - 2.0 * d * h * i + 2.0 * e * g * i, a * c + d * f + g * i);
    Product22d(a, b, c, d, e, f, g, h, i);
    TimesZero(-2.0 * a * i + 2.0 * c * g - 2.0 * a * c * c - 2.0 * a * i * i - 2.0 * c * d * f, b * b + e * e + h * h - 1.0);
    Product22e(a, b, c, d, e, f, g, h, i);
    TimesZero(-2.0 * a * f + 2.0 * a * h - 2.0 * b * g + 2.0 * c * d + 2.0 * a * b * c - 2.0 * a * f * i + 2.0 * a * h * i + 2.0 * b * d * f + 2.0 * c * d * i, b * c + e * f + h * i);
    Product22f(a, b, c, d, e, f, g, h, i);
    TimesZero(2.0 + 2.0 * a * e - 2.0 * b * d + 2.0 * a * f * h - 2.0 * b * f * g - 2.0 * c * d * h + 2.0 * c * e * g, c * c + f * f + i * i - 1.0);
    Product22g(a, b, c, d, e, f, g, h, i);
    TimesZero(2.0 * a + 2.0 * e + 2.0 * a * i + 2.0 * c * c + 2.0 * e * i + 2.0 * f * f, a * (e * i - f * h) - b * (d * i - f * g) + c * (d * h - e * g) - 1.0);
  }

  /** Entry (2, 2) of A (2 D I + 4 skew(n)) - (2 D I - 4 skew(n)) as a polynomial in the
      entries of A. */
  lemma CayleyRelationPolynomial22(a: real, b: real, c: real, d: real, e: real, f: real, g: real, h: real, i: real)
    ensures Dot3(g, h, i,
                 ShiftedSkew(2.0 * CayleyDenominator(a, b, c, d, e, f, g, h, i), Scale(4.0, CayleyNumerators(a, b, c, d, e, f, g, h, i))).m02,
                 ShiftedSkew(2.0 * CayleyDenominator(a, b, c, d, e, f, g, h, i), Scale(4.0, CayleyNumerators(a, b, c, d, e, f, g, h, i))).m12,
                 ShiftedSkew(2.0 * CayleyDenominator(a, b, c, d, e, f, g, h, i), Scale(4.0, CayleyNumerators(a, b, c, d, e, f, g, h, i))).m22)
            - ShiftedSkew(2.0 * CayleyDenominator(a, b, c, d, e, f, g, h, i), Scale(-4.0, CayleyNumerators(a, b, c, d, e, f, g, h, i))).m22
         == -2.0 - 2.0 * a - 2.0 * e - 2.0 * a * e + 2.0 * b * d - 2.0 * c * g - 2.0 * f * h + 2.0 * i * i - 2.0 * a * f * h + 2.0 * a * i * i + 2.0 * b * f * g + 2.0 * c * d * h - 2.0 * c * e * g - 2.0 * c * g * i + 2.0 * e * i * i - 2.0 * f * h * i + 2.0 * a * e * i * i - 2.0 * a * f * h * i - 2.0 * b * d * i * i + 2.0 * b * f * g * i + 2.0 * c * d * h * i - 2.0 * c * e * g * i
  {}

  /** Entry (2, 2) of A (2 D I + 4 skew(n)) - (2 D I - 4 skew(n)), expanded. */
  lemma ExpandCayleyRelation22(A: Mat3)
    ensures MatMul(A, ShiftedSkew(2.0 * CayleyDenominator(A.m00, A.m01, A.m02, A.m10, A.m11, A.m12, A.m20, A.m21, A.m22), Scale(4.0, CayleyNumerators(A.m00, A.m01, A.m02, A.m10, A.m11, A.m12, A.m20, A.m21, A.m22)))).m22
            - ShiftedSkew(2.0 * CayleyDenominator(A.m00, A.m01, A.m02, A.m10, A.m11, A.m12, A.m20, A.m21, A.m22), Scale(-4.0, CayleyNumerators(A.m00, A.m01, A.m02, A.m10, A.m11, A.m12, A.m20, A.m21, A.m22))).m22
            == -2.0 - 2.0 * A.m00 - 2.0 * A.m11 - 2.0 * A.m00 * A.m11 + 2.0 * A.m01 * A.m10 - 2.0 * A.m02 * A.m20 - 2.0 * A.m12 * A.m21 + 2.0 * A.m22 * A.m22 - 2.0 * A.m00 * A.m12 * A.m21 + 2.0 * A.m00 * A.m22 * A.m22 + 2.0 * A.m01 * A.m12 * A.m20 + 2.0 * A.m02 * A.m10 * A.m21 - 2.0 * A.m02 * A.m11 * A.m20 - 2.0 * A.m02 * A.m20 * A.m22 + 2.0 * A.m11 * A.m22 * A.m22 - 2.0 * A.m12 * A.m21 * A.m22 + 2.0 * A.m00 * A.m11 * A.m22 * A.m22 - 2.0 * A.m00 * A.m12 * A.m21 * A.m22 - 2.0 * A.m01 * A.m10 * A.m22 * A.m22 + 2.0 * A.m01 * A.m12 * A.m20 * A.m22 + 2.0 * A.m02 * A.m10 * A.m21 * A.m22 - 2.0 * A.m02 * A.m11 * A.m20 * A.m22
  {
    CayleyRelationPolynomial22(A.m00, A.m01, A.m02, A.m10, A.m11, A.m12, A.m20, A.m21, A.m22);
  }

  lemma CayleyRelationEntry00(A: Mat3)
    requires SpecialOrthogonalEntries(A.m00, A.m01, A.m02, A.m10, A.m11, A.m12, A.m20, A.m21, A.m22)
    ensures MatMul(A, ShiftedSkew(2.0 * CayleyDenominator(A.m00, A.m01, A.m02, A.m10, A.m11, A.m12, A.m20, A.m21, A.m22), Scale(4.0, CayleyNumerators(A.m00, A.m01, A.m02, A.m10, A.m11, A.m12, A.m20, A.m21, A.m22)))).m00
         == ShiftedSkew(2.0 * CayleyDenominator(A.m00, A.m01, A.m02, A.m10, A.m11, A.m12, A.m20, A.m21, A.m22), Scale(-4.0, CayleyNumerators(A.m00, A.m01, A.m02, A.m10, A.m11, A.m12, A.m20, A.m21, A.m22))).m00
  {
    RotationCayleyEntry00(A.m00, A.m01, A.m02, A.m10, A.m11, A.m12, A.m20, A.m21, A.m22);
    ExpandCayleyRelation00(A);
  }

  lemma CayleyRelationEntry01(A: Mat3)
    requires SpecialOrthogonalEntries(A.m00, A.m01, A.m02, A.m10, A.m11, A.m12, A.m20, A.m21, A.m22)
    ensures MatMul(A, ShiftedSkew(2.0 * CayleyDenominator(A.m00, A.m01, A.m02, A.m10, A.m11, A.m12, A.m20, A.m21, A.m22), Scale(4.0, CayleyNumerators(A.m00, A.m01, A.m02, A.m10, A.m11, A.m12, A.m20, A.m21, A.m22)))).m01
         == ShiftedSkew(2.0 * CayleyDenominator(A.m00, A.m01, A.m02, A.m10, A.m11, A.m12, A.m20, A.m21, A.m22), Scale(-4.0, CayleyNumerators(A.m00, A.m01, A.m02, A.m10, A.m11, A.m12, A.m20, A.m21, A.m22))).m01
  {
    RotationCayleyEntry01(A.m00, A.m01, A.m02, A.m10, A.m11, A.m12, A.m20, A.m21, A.m22);
    ExpandCayleyRelation01(A);
  }

  lemma CayleyRelationEntry02(A: Mat3)
    requires SpecialOrthogonalEntries(A.m00, A.m01, A.m02, A.m10, A.m11, A.m12, A.m20, A.m21, A.m22)
    ensures MatMul(A, ShiftedSkew(2.0 * CayleyDenominator(A.m00, A.m01, A.m02, A.m10, A.m11, A.m12, A.m20, A.m21, A.m22), Scale(4.0, CayleyNumerators(A.m00, A.m01, A.m02, A.m10, A.m11, A.m12, A.m20, A.m21, A.m22)))).m02
         == ShiftedSkew(2.0 * CayleyDenominator(A.m00, A.m01, A.m02, A.m10, A.m11, A.m12, A.m20, A.m21, A.m22), Scale(-4.0, CayleyNumerators(A.m00, A.m01, A.m02, A.m10, A.m11, A.m12, A.m20, A.m21, A.m22))).m02
  {
    RotationCayleyEntry02(A.m00, A.m01, A.m02, A.m10, A.m11, A.m12, A.m20, A.m21, A.m22);
    ExpandCayleyRelation02(A);
  }

  lemma CayleyRelationEntry10(A: Mat3)
    requires SpecialOrthogonalEntries(A.m00, A.m01, A.m02, A.m10, A.m11, A.m12, A.m20, A.m21, A.m22)
    ensures MatMul(A, ShiftedSkew(2.0 * CayleyDenominator(A.m00, A.m01, A.m02, A.m10, A.m11, A.m12, A.m20, A.m21, A.m22), Scale(4.0, CayleyNumerators(A.m00, A.m01, A.m02, A.m10, A.m11, A.m12, A.m20, A.m21, A.m22)))).m10
         == ShiftedSkew(2.0 * CayleyDenominator(A.m00, A.m01, A.m02, A.m10, A.m11, A.m12, A.m20, A.m21, A.m22), Scale(-4.0, CayleyNumerators(A.m00, A.m01, A.m02, A.m10, A.m11, A.m12, A.m20, A.m21, A.m22))).m10
  {
    RotationCayleyEntry10(A.m00, A.m01, A.m02, A.m10, A.m11, A.m12, A.m20, A.m21, A.m22);
    ExpandCayleyRelation10(A);
  }

  lemma CayleyRelationEntry11(A: Mat3)
    requires SpecialOrthogonalEntries(A.m00, A.m01, A.m02, A.m10, A.m11, A.m12, A.m20, A.m21, A.m22)
    ensures MatMul(A, ShiftedSkew(2.0 * CayleyDenominator(A.m00, A.m01, A.m02, A.m10, A.m11, A.m12, A.m20, A.m21, A.m22), Scale(4.0, CayleyNumerators(A.m00, A.m01, A.m02, A.m10, A.m11, A.m12, A.m20, A.m21, A.m22)))).m11
         == ShiftedSkew(2.0 * CayleyDenominator(A.m00, A.m01, A.m02, A.m10, A.m11, A.m12, A.m20, A.m21, A.m22), Scale(-4.0, CayleyNumerators(A.m00, A.m01, A.m02, A.m10, A.m11, A.m12, A.m20, A.m21, A.m22))).m11
  {
    RotationCayleyEntry11(A.m00, A.m01, A.m02, A.m10, A.m11, A.m12, A.m20, A.m21, A.m22);
    ExpandCayleyRelation11(A);
  }

  lemma CayleyRelationEntry12(A: Mat3)
    requires SpecialOrthogonalEntries(A.m00, A.m01, A.m02, A.m10, A.m11, A.m12, A.m20, A.m21, A.m22)
    ensures MatMul(A, ShiftedSkew(2.0 * CayleyDenominator(A.m00, A.m01, A.m02, A.m10, A.m11, A.m12, A.m20, A.m21, A.m22), Scale(4.0, CayleyNumerators(A.m00, A.m01, A.m02, A.m10, A.m11, A.m12, A.m20, A.m21, A.m22)))).m12
         == ShiftedSkew(2.0 * CayleyDenominator(A.m00, A.m01, A.m02, A.m10, A.m11, A.m12, A.m20, A.m21, A.m22), Scale(-4.0, CayleyNumerators(A.m00, A.m01, A.m02, A.m10, A.m11, A.m12, A.m20, A.m21, A.m22))).m12
  {
    RotationCayleyEntry12(A.m00, A.m01, A.m02, A.m10, A.m11, A.m12, A.m20, A.m21, A.m22);
    ExpandCayleyRelation12(A);
  }

  lemma CayleyRelationEntry20(A: Mat3)
    requires SpecialOrthogonalEntries(A.m00, A.m01, A.m02, A.m10, A.m11, A.m12, A.m20, A.m21, A.m22)
    ensures MatMul(A, ShiftedSkew(2.0 * CayleyDenominator(A.m00, A.m01, A.m02, A.m10, A.m11, A.m12, A.m20, A.m21, A.m22), Scale(4.0, CayleyNumerators(A.m00, A.m01, A.m02, A.m10, A.m11, A.m12, A.m20, A.m21, A.m22)))).m20
         == ShiftedSkew(2.0 * CayleyDenominator(A.m00, A.m01, A.m02, A.m10, A.m11, A.m12, A.m20, A.m21, A.m22), Scale(-4.0, CayleyNumerators(A.m00, A.m01, A.m02, A.m10, A.m11, A.m12, A.m20, A.m21, A.m22))).m20
  {
    RotationCayleyEntry20(A.m00, A.m01, A.m02, A.m10, A.m11, A.m12, A.m20, A.m21, A.m22);
    ExpandCayleyRelation20(A);
  }

  lemma CayleyRelationEntry21(A: Mat3)
    requires SpecialOrthogonalEntries(A.m00, A.m01, A.m02, A.m10, A.m11, A.m12, A.m20, A.m21, A.m22)
    ensures MatMul(A, ShiftedSkew(2.0 * CayleyDenominator(A.m00, A.m01, A.m02, A.m10, A.m11, A.m12, A.m20, A.m21, A.m22), Scale(4.0, CayleyNumerators(A.m00, A.m01, A.m02, A.m10, A.m11, A.m12, A.m20, A.m21, A.m22)))).m21
         == ShiftedSkew(2.0 * CayleyDenominator(A.m00, A.m01, A.m02, A.m10, A.m11, A.m12, A.m20, A.m21, A.m22), Scale(-4.0, CayleyNumerators(A.m00, A.m01, A.m02, A.m10, A.m11, A.m12, A.m20, A.m21, A.m22))).m21
  {
    RotationCayleyEntry21(A.m00, A.m01, A.m02, A.m10, A.m11, A.m12, A.m20, A.m21, A.m22);
    ExpandCayleyRelation21(A);
  }

  lemma CayleyRelationEntry22(A: Mat3)
    requires SpecialOrthogonalEntries(A.m00, A.m01, A.m02, A.m10, A.m11, A.m12, A.m20, A.m21, A.m22)
    ensures MatMul(A, ShiftedSkew(2.0 * CayleyDenominator(A.m00, A.m01, A.m02, A.m10, A.m11, A.m12, A.m20, A.m21, A.m22), Scale(4.0, CayleyNumerators(A.m00, A.m01, A.m02, A.m10, A.m11, A.m12, A.m20, A.m21, A.m22)))).m22
         == ShiftedSkew(2.0 * CayleyDenominator(A.m00, A.m01, A.m02, A.m10, A.m11, A.m12, A.m20, A.m21, A.m22), Scale(-4.0, CayleyNumerators(A.m00, A.m01, A.m02, A.m10, A.m11, A.m12, A.m20, A.m21, A.m22))).m22
  {
    RotationCayleyEntry22(A.m00, A.m01, A.m02, A.m10, A.m11, A.m12, A.m20, A.m21, A.m22);
    ExpandCayleyRelation22(A);
  }

  /** A rotation matrix A with CALEY denominator D and numerators n satisfies
      A (2 D I + 4 skew(n)) = 2 D I - 4 skew(n). */
  lemma RotationCayleyRelation(A: Mat3)
    requires SpecialOrthogonalEntries(A.m00, A.m01, A.m02, A.m10, A.m11, A.m12, A.m20, A.m21, A.m22)
    ensures MatMul(A, ShiftedSkew(2.0 * CayleyDenominator(A.m00, A.m01, A.m02, A.m10, A.m11, A.m12, A.m20, A.m21, A.m22), Scale(4.0, CayleyNumerators(A.m00, A.m01, A.m02, A.m10, A.m11, A.m12, A.m20, A.m21, A.m22))))
         == ShiftedSkew(2.0 * CayleyDenominator(A.m00, A.m01, A.m02, A.m10, A.m11, A.m12, A.m20, A.m21, A.m22), Scale(-4.0, CayleyNumerators(A.m00, A.m01, A.m02, A.m10, A.m11, A.m12, A.m20, A.m21, A.m22)))
  {
    CayleyRelationEntry00(A);
    CayleyRelationEntry01(A);
    CayleyRelationEntry02(A);
    CayleyRelationEntry10(A);
    CayleyRelationEntry11(A);
    CayleyRelationEntry12(A);
    CayleyRelationEntry20(A);
    CayleyRelationEntry21(A);
    CayleyRelationEntry22(A);
  }
}
