/** The linear algebra the rotation type is built on: 3-vectors (gtsam's Point3, also
    used for the 3-component tangent vectors of so(3)) and 3x3 matrices, over exact reals.
    These are the reference definitions the rotation operations are stated against:
    matrix product, transpose, matrix-vector product, skew-symmetric matrix, determinant.

    Every product of a row by a column goes through the scalar function Dot3, and the
    determinant through Det3, so that two entries computed along different routes meet in
    the same application of an uninterpreted scalar function. */
module Algebra {

  /** A point of R^3, or a tangent vector written as its three components. */
  datatype Point3 = Point3(x: real, y: real, z: real)

  function Abs(a: real): real { if a < 0.0 then -a else a }

  function Add(p: Point3, q: Point3): Point3 { Point3(p.x + q.x, p.y + q.y, p.z + q.z) }

  /** p scaled by k (gtsam's Point3 * double and double * Vector). */
  function Scale(k: real, p: Point3): Point3 { Point3(k * p.x, k * p.y, k * p.z) }

  function Negate(p: Point3): Point3 { Point3(-p.x, -p.y, -p.z) }

  function Zero(): Point3 { Point3(0.0, 0.0, 0.0) }

  lemma ScaleNegate(k: real, p: Point3)
    ensures Scale(k, Negate(p)) == Negate(Scale(k, p))
  {}

  /** The dot product of the coordinate triples (a0, a1, a2) and (b0, b1, b2). */
  function Dot3(a0: real, a1: real, a2: real, b0: real, b1: real, b2: real): real {
    a0 * b0 + a1 * b1 + a2 * b2
  }

  function Dot(p: Point3, q: Point3): real { Dot3(p.x, p.y, p.z, q.x, q.y, q.z) }

  /** The squared Euclidean norm. */
  function NormSq(p: Point3): real { Dot(p, p) }

  /** A product kept behind a function, so that a product met in two proofs is the same term. */
  function Times(a: real, b: real): real { a * b }

  /** A product with a zero factor is zero. */
  lemma TimesZero(a: real, b: real)
    requires b == 0.0
    ensures Times(a, b) == 0.0
  {}

  /** A zero product with a nonzero factor has a zero cofactor. */
  lemma ZeroProduct(a: real, b: real)
    requires a * b == 0.0 && a != 0.0
    ensures b == 0.0
  {}

  lemma SquareNonnegative(a: real)
    ensures 0.0 <= a * a
  {}

  lemma SquarePositive(a: real)
    requires a != 0.0
    ensures 0.0 < a * a
  {}

  /** A nonzero factor cancels. */
  lemma CancelFactor(a: real, b: real, c: real)
    requires a != 0.0 && Times(a, b) == Times(a, c)
    ensures b == c
  {}

  /** Scaling by k scales the squared norm by k^2. */
  lemma NormSqScale(k: real, p: Point3)
    ensures NormSq(Scale(k, p)) == Times(k, Times(k, NormSq(p)))
  {}

  /** A 3x3 matrix, entries named by (row, column), both counted from 0 as in Eigen's M(i, j). */
  datatype Mat3 = Mat3(m00: real, m01: real, m02: real,
                       m10: real, m11: real, m12: real,
                       m20: real, m21: real, m22: real)

  /** Column j of M, counted from 0 (Eigen's M.col(j)). */
  function MatColumn(M: Mat3, j: nat): Point3
    requires j < 3
  {
    if j == 0 then Point3(M.m00, M.m10, M.m20)
    else if j == 1 then Point3(M.m01, M.m11, M.m21)
    else Point3(M.m02, M.m12, M.m22)
  }

  /** The identity matrix (gtsam's eye(3), I3). */
  function Eye(): Mat3 { Mat3(1.0, 0.0, 0.0, 0.0, 1.0, 0.0, 0.0, 0.0, 1.0) }

  function MatNeg(M: Mat3): Mat3 {
    Mat3(-M.m00, -M.m01, -M.m02, -M.m10, -M.m11, -M.m12, -M.m20, -M.m21, -M.m22)
  }

  function MatAdd(A: Mat3, B: Mat3): Mat3 {
    Mat3(A.m00 + B.m00, A.m01 + B.m01, A.m02 + B.m02,
         A.m10 + B.m10, A.m11 + B.m11, A.m12 + B.m12,
         A.m20 + B.m20, A.m21 + B.m21, A.m22 + B.m22)
  }

  function MatScale(k: real, M: Mat3): Mat3 {
    Mat3(k * M.m00, k * M.m01, k * M.m02,
         k * M.m10, k * M.m11, k * M.m12,
         k * M.m20, k * M.m21, k * M.m22)
  }

  function MatTranspose(M: Mat3): Mat3 {
    Mat3(M.m00, M.m10, M.m20, M.m01, M.m11, M.m21, M.m02, M.m12, M.m22)
  }

  /** The matrix product: entry (i, j) is row i of A dotted with column j of B. */
  function MatMul(A: Mat3, B: Mat3): Mat3 {
    Mat3(Dot3(A.m00, A.m01, A.m02, B.m00, B.m10, B.m20),
         Dot3(A.m00, A.m01, A.m02, B.m01, B.m11, B.m21),
         Dot3(A.m00, A.m01, A.m02, B.m02, B.m12, B.m22),
         Dot3(A.m10, A.m11, A.m12, B.m00, B.m10, B.m20),
         Dot3(A.m10, A.m11, A.m12, B.m01, B.m11, B.m21),
         Dot3(A.m10, A.m11, A.m12, B.m02, B.m12, B.m22),
         Dot3(A.m20, A.m21, A.m22, B.m00, B.m10, B.m20),
         Dot3(A.m20, A.m21, A.m22, B.m01, B.m11, B.m21),
         Dot3(A.m20, A.m21, A.m22, B.m02, B.m12, B.m22))
  }

  /** The matrix-vector product M p. */
  function MatVec(M: Mat3, p: Point3): Point3 {
    Point3(Dot3(M.m00, M.m01, M.m02, p.x, p.y, p.z),
           Dot3(M.m10, M.m11, M.m12, p.x, p.y, p.z),
           Dot3(M.m20, M.m21, M.m22, p.x, p.y, p.z))
  }

  /** The outer product p q^T. */
  function Outer(p: Point3, q: Point3): Mat3 {
    Mat3(p.x * q.x, p.x * q.y, p.x * q.z,
         p.y * q.x, p.y * q.y, p.y * q.z,
         p.z * q.x, p.z * q.y, p.z * q.z)
  }

  /** gtsam's skewSymmetric(x, y, z): the matrix [p]x, which maps q to p x q. */
  function Skew(p: Point3): Mat3 {
    Mat3(0.0, -p.z, p.y,
         p.z, 0.0, -p.x,
         -p.y, p.x, 0.0)
  }

  /** The determinant of the matrix with rows (a, b, c), (d, e, f), (g, h, i). */
  /** t I + skew(p). */
  function ShiftedSkew(t: real, p: Point3): Mat3 {
    Mat3(t, -p.z, p.y,
         p.z, t, -p.x,
         -p.y, p.x, t)
  }

  function Det3(a: real, b: real, c: real, d: real, e: real, f: real, g: real, h: real, i: real): real {
    a * (e * i - f * h) - b * (d * i - f * g) + c * (d * h - e * g)
  }

  function Det(M: Mat3): real {
    Det3(M.m00, M.m01, M.m02, M.m10, M.m11, M.m12, M.m20, M.m21, M.m22)
  }

  /** Associativity of a row against a product, on scalars: (a B) . p = a . (B p), where the
      rows of B are (b00, b01, b02), (b10, b11, b12), (b20, b21, b22). */
  lemma Dot3Assoc(a0: real, a1: real, a2: real,
                  b00: real, b01: real, b02: real,
                  b10: real, b11: real, b12: real,
                  b20: real, b21: real, b22: real,
                  p0: real, p1: real, p2: real)
    ensures Dot3(Dot3(a0, a1, a2, b00, b10, b20), Dot3(a0, a1, a2, b01, b11, b21), Dot3(a0, a1, a2, b02, b12, b22), p0, p1, p2)
         == Dot3(a0, a1, a2, Dot3(b00, b01, b02, p0, p1, p2), Dot3(b10, b11, b12, p0, p1, p2), Dot3(b20, b21, b22, p0, p1, p2))
  {}

  /** Applying a product is applying the factors in turn. */
  lemma MatVecMul(A: Mat3, B: Mat3, p: Point3)
    ensures MatVec(MatMul(A, B), p) == MatVec(A, MatVec(B, p))
  {
    Dot3Assoc(A.m00, A.m01, A.m02, B.m00, B.m01, B.m02, B.m10, B.m11, B.m12, B.m20, B.m21, B.m22, p.x, p.y, p.z);
    Dot3Assoc(A.m10, A.m11, A.m12, B.m00, B.m01, B.m02, B.m10, B.m11, B.m12, B.m20, B.m21, B.m22, p.x, p.y, p.z);
    Dot3Assoc(A.m20, A.m21, A.m22, B.m00, B.m01, B.m02, B.m10, B.m11, B.m12, B.m20, B.m21, B.m22, p.x, p.y, p.z);
  }

  /** Column j of a product is the left factor applied to column j of the right factor. */
  lemma ColumnOfProduct(A: Mat3, B: Mat3, j: nat)
    requires j < 3
    ensures MatColumn(MatMul(A, B), j) == MatVec(A, MatColumn(B, j))
  {
    if j == 0 {
      assert MatColumn(B, j) == Point3(B.m00, B.m10, B.m20);
    } else if j == 1 {
      assert MatColumn(B, j) == Point3(B.m01, B.m11, B.m21);
    } else {
      assert MatColumn(B, j) == Point3(B.m02, B.m12, B.m22);
    }
  }

  /** Matrices with the same columns are equal. */
  lemma MatEqByColumns(A: Mat3, B: Mat3)
    requires MatColumn(A, 0) == MatColumn(B, 0)
    requires MatColumn(A, 1) == MatColumn(B, 1)
    requires MatColumn(A, 2) == MatColumn(B, 2)
    ensures A == B
  {}

  lemma MatMulAssoc(A: Mat3, B: Mat3, C: Mat3)
    ensures MatMul(MatMul(A, B), C) == MatMul(A, MatMul(B, C))
  {
    forall j | 0 <= j < 3
      ensures MatColumn(MatMul(MatMul(A, B), C), j) == MatColumn(MatMul(A, MatMul(B, C)), j)
    {
      ColumnOfProduct(MatMul(A, B), C, j);
      MatVecMul(A, B, MatColumn(C, j));
      ColumnOfProduct(B, C, j);
      ColumnOfProduct(A, MatMul(B, C), j);
    }
    MatEqByColumns(MatMul(MatMul(A, B), C), MatMul(A, MatMul(B, C)));
  }

  lemma MatMulEye(A: Mat3)
    ensures MatMul(A, Eye()) == A && MatMul(Eye(), A) == A
  {}

  lemma MatVecEye(p: Point3)
    ensures MatVec(Eye(), p) == p
  {}

  lemma MatTransposeInvolutive(A: Mat3)
    ensures MatTranspose(MatTranspose(A)) == A
  {}

  lemma MatTransposeMul(A: Mat3, B: Mat3)
    ensures MatTranspose(MatMul(A, B)) == MatMul(MatTranspose(B), MatTranspose(A))
  {}

  lemma MatMulNeg(A: Mat3, B: Mat3)
    ensures MatMul(A, MatNeg(B)) == MatNeg(MatMul(A, B))
  {}

  lemma DetTranspose(M: Mat3)
    ensures Det(MatTranspose(M)) == Det(M)
  {}

  lemma DetEye()
    ensures Det(Eye()) == 1.0
  {}

  /** The product rule of determinants, on the entries of the two factors. */
  lemma DetMulEntries(A: Mat3, B: Mat3)
    ensures Det3(A.m00 * B.m00 + A.m01 * B.m10 + A.m02 * B.m20,
                 A.m00 * B.m01 + A.m01 * B.m11 + A.m02 * B.m21,
                 A.m00 * B.m02 + A.m01 * B.m12 + A.m02 * B.m22,
                 A.m10 * B.m00 + A.m11 * B.m10 + A.m12 * B.m20,
                 A.m10 * B.m01 + A.m11 * B.m11 + A.m12 * B.m21,
                 A.m10 * B.m02 + A.m11 * B.m12 + A.m12 * B.m22,
                 A.m20 * B.m00 + A.m21 * B.m10 + A.m22 * B.m20,
                 A.m20 * B.m01 + A.m21 * B.m11 + A.m22 * B.m21,
                 A.m20 * B.m02 + A.m21 * B.m12 + A.m22 * B.m22)
         == Det3(A.m00, A.m01, A.m02, A.m10, A.m11, A.m12, A.m20, A.m21, A.m22)
          * Det3(B.m00, B.m01, B.m02, B.m10, B.m11, B.m12, B.m20, B.m21, B.m22)
  {}

  lemma DetMul(A: Mat3, B: Mat3)
    ensures Det(MatMul(A, B)) == Det(A) * Det(B)
  {
    var P := MatMul(A, B);
    assert P == Mat3(A.m00 * B.m00 + A.m01 * B.m10 + A.m02 * B.m20,
                     A.m00 * B.m01 + A.m01 * B.m11 + A.m02 * B.m21,
                     A.m00 * B.m02 + A.m01 * B.m12 + A.m02 * B.m22,
                     A.m10 * B.m00 + A.m11 * B.m10 + A.m12 * B.m20,
                     A.m10 * B.m01 + A.m11 * B.m11 + A.m12 * B.m21,
                     A.m10 * B.m02 + A.m11 * B.m12 + A.m12 * B.m22,
                     A.m20 * B.m00 + A.m21 * B.m10 + A.m22 * B.m20,
                     A.m20 * B.m01 + A.m21 * B.m11 + A.m22 * B.m21,
                     A.m20 * B.m02 + A.m21 * B.m12 + A.m22 * B.m22);
    assert Det(P) == Det3(P.m00, P.m01, P.m02, P.m10, P.m11, P.m12, P.m20, P.m21, P.m22);
    assert Det(A) * Det(B) == Det3(A.m00, A.m01, A.m02, A.m10, A.m11, A.m12, A.m20, A.m21, A.m22)
                            * Det3(B.m00, B.m01, B.m02, B.m10, B.m11, B.m12, B.m20, B.m21, B.m22);
    DetMulEntries(A, B);
  }

  /** A multiple of the identity matrix. */
  lemma MatScaleEye(k: real)
    ensures MatScale(k, Eye()) == Mat3(k, 0.0, 0.0, 0.0, k, 0.0, 0.0, 0.0, k)
  {}

  /** The 2x2 determinant of the rows (a, b) and (c, d). */
  function Minor(a: real, b: real, c: real, d: real): real { a * d - b * c }

  /** The transpose of the cofactor matrix: column j is the cross product of the other two rows. */
  function Adjugate(M: Mat3): Mat3 {
    Mat3(Minor(M.m11, M.m12, M.m21, M.m22), Minor(M.m21, M.m22, M.m01, M.m02), Minor(M.m01, M.m02, M.m11, M.m12),
         Minor(M.m12, M.m10, M.m22, M.m20), Minor(M.m22, M.m20, M.m02, M.m00), Minor(M.m02, M.m00, M.m12, M.m10),
         Minor(M.m10, M.m11, M.m20, M.m21), Minor(M.m20, M.m21, M.m00, M.m01), Minor(M.m00, M.m01, M.m10, M.m11))
  }

  /** The triple product: (a, b, c) dotted with the cross product of (d, e, f) and (g, h, i)
      is the determinant of the three rows. */
  lemma TripleProduct(a: real, b: real, c: real, d: real, e: real, f: real, g: real, h: real, i: real)
    ensures Dot3(a, b, c, Minor(e, f, h, i), Minor(f, d, i, g), Minor(d, e, g, h)) == Det3(a, b, c, d, e, f, g, h, i)
  {}

  // Cramer's rule, one row of M adj(M) at a time: a row against the cross product of two rows
  // is det(M) when the three rows are distinct and 0 when one repeats.

  lemma MulAdjugateRow0(M: Mat3)
    ensures MatMul(M, Adjugate(M)).m00 == Det(M)
    ensures MatMul(M, Adjugate(M)).m01 == 0.0
    ensures MatMul(M, Adjugate(M)).m02 == 0.0
  {
    TripleProduct(M.m00, M.m01, M.m02, M.m10, M.m11, M.m12, M.m20, M.m21, M.m22);
    TripleProduct(M.m00, M.m01, M.m02, M.m20, M.m21, M.m22, M.m00, M.m01, M.m02);
    TripleProduct(M.m00, M.m01, M.m02, M.m00, M.m01, M.m02, M.m10, M.m11, M.m12);
  }

  lemma MulAdjugateRow1(M: Mat3)
    ensures MatMul(M, Adjugate(M)).m10 == 0.0
    ensures MatMul(M, Adjugate(M)).m11 == Det(M)
    ensures MatMul(M, Adjugate(M)).m12 == 0.0
  {
    TripleProduct(M.m10, M.m11, M.m12, M.m10, M.m11, M.m12, M.m20, M.m21, M.m22);
    TripleProduct(M.m10, M.m11, M.m12, M.m20, M.m21, M.m22, M.m00, M.m01, M.m02);
    TripleProduct(M.m10, M.m11, M.m12, M.m00, M.m01, M.m02, M.m10, M.m11, M.m12);
    TripleProduct(M.m00, M.m01, M.m02, M.m10, M.m11, M.m12, M.m20, M.m21, M.m22);
  }

  lemma MulAdjugateRow2(M: Mat3)
    ensures MatMul(M, Adjugate(M)).m20 == 0.0
    ensures MatMul(M, Adjugate(M)).m21 == 0.0
    ensures MatMul(M, Adjugate(M)).m22 == Det(M)
  {
    TripleProduct(M.m20, M.m21, M.m22, M.m10, M.m11, M.m12, M.m20, M.m21, M.m22);
    TripleProduct(M.m20, M.m21, M.m22, M.m20, M.m21, M.m22, M.m00, M.m01, M.m02);
    TripleProduct(M.m20, M.m21, M.m22, M.m00, M.m01, M.m02, M.m10, M.m11, M.m12);
    TripleProduct(M.m00, M.m01, M.m02, M.m10, M.m11, M.m12, M.m20, M.m21, M.m22);
  }

  /** Cramer's rule: M adj(M) = det(M) I. */
  lemma MulAdjugate(M: Mat3)
    ensures MatMul(M, Adjugate(M)) == MatScale(Det(M), Eye())
  {
    MulAdjugateRow0(M);
    MulAdjugateRow1(M);
    MulAdjugateRow2(M);
    MatScaleEye(Det(M));
  }

  /** Multiplying by a multiple d I of the identity scales every entry by d. */
  lemma MatMulScalar(M: Mat3, d: real)
    ensures MatMul(M, Mat3(d, 0.0, 0.0, 0.0, d, 0.0, 0.0, 0.0, d))
         == Mat3(Times(d, M.m00), Times(d, M.m01), Times(d, M.m02),
                 Times(d, M.m10), Times(d, M.m11), Times(d, M.m12),
                 Times(d, M.m20), Times(d, M.m21), Times(d, M.m22))
  {}

  /** A factor with a nonzero determinant cancels on the right: multiply by its adjugate,
      which turns both sides into det(N) times M1 and M2. */
  lemma MatCancelRight(M1: Mat3, M2: Mat3, N: Mat3)
    requires MatMul(M1, N) == MatMul(M2, N) && Det(N) != 0.0
    ensures M1 == M2
  {
    MulAdjugate(N);
    MatScaleEye(Det(N));
    MatMulAssoc(M1, N, Adjugate(N));
    MatMulAssoc(M2, N, Adjugate(N));
    MatMulScalar(M1, Det(N));
    MatMulScalar(M2, Det(N));
    CancelFactor(Det(N), M1.m00, M2.m00);
    CancelFactor(Det(N), M1.m01, M2.m01);
    CancelFactor(Det(N), M1.m02, M2.m02);
    CancelFactor(Det(N), M1.m10, M2.m10);
    CancelFactor(Det(N), M1.m11, M2.m11);
    CancelFactor(Det(N), M1.m12, M2.m12);
    CancelFactor(Det(N), M1.m20, M2.m20);
    CancelFactor(Det(N), M1.m21, M2.m21);
    CancelFactor(Det(N), M1.m22, M2.m22);
  }

  /** det(t I + skew(p)) = t (t^2 + |p|^2). */
  lemma DetShiftedSkew(t: real, p: Point3)
    ensures Det(ShiftedSkew(t, p)) == t * (t * t + NormSq(p))
  {}

  /** t I + skew(p) is invertible for t != 0: its determinant t (t^2 + |p|^2) has two
      nonzero factors. */
  lemma ShiftedSkewInvertible(t: real, p: Point3)
    requires t != 0.0
    ensures Det(ShiftedSkew(t, p)) != 0.0
  {
    DetShiftedSkew(t, p);
    SquareNonnegative(p.x);
    SquareNonnegative(p.y);
    SquareNonnegative(p.z);
    SquarePositive(t);
    if Det(ShiftedSkew(t, p)) == 0.0 {
      ZeroProduct(t, t * t + NormSq(p));
      assert false;
    }
  }

  /** M^T M = I forces det(M)^2 = 1, so det(M) is 1 or -1. */
  lemma OrthogonalDet(M: Mat3)
    requires MatMul(MatTranspose(M), M) == Eye()
    ensures Det(M) == 1.0 || Det(M) == -1.0
  {
    DetMul(MatTranspose(M), M);
    DetTranspose(M);
    DetEye();
  }

  // k is a parameter, here and below, so that a caller can pass a term such as Det(M)
  // that is 1 (or -1) only by hypothesis.
  lemma MatScaleOne(k: real, X: Mat3)
    requires k == 1.0
    ensures MatScale(k, X) == X
  {}

  lemma MatScaleMinusOne(k: real, X: Mat3)
    requires k == -1.0
    ensures MatScale(k, X) == MatNeg(X)
  {}

  /** A left inverse of a square matrix that has a right inverse is also a right inverse. */
  lemma InverseSides(T: Mat3, M: Mat3, A: Mat3)
    requires MatMul(T, M) == Eye()
    requires MatMul(M, A) == Eye()
    ensures MatMul(M, T) == Eye()
  {
    MatMulAssoc(T, M, A);
    MatMulEye(A);
    MatMulEye(T);
  }

  /** If M A = -E then M (-A) = E. */
  lemma NegatedInverse(M: Mat3, A: Mat3, E: Mat3)
    requires MatMul(M, A) == MatNeg(E)
    ensures MatMul(M, MatNeg(A)) == E
  {
    MatMulNeg(M, A);
  }

  /** A square matrix with orthonormal columns (M^T M = I) also has orthonormal rows
      (M M^T = I): by Cramer's rule M adj(M) = det(M) I with det(M) = 1 or -1, so M has a
      right inverse, which the left inverse M^T then equals. */
  lemma OrthogonalRows(M: Mat3)
    requires MatMul(MatTranspose(M), M) == Eye()
    ensures MatMul(M, MatTranspose(M)) == Eye()
  {
    OrthogonalDet(M);
    MulAdjugate(M);
    if Det(M) == 1.0 {
      MatScaleOne(Det(M), Eye());
      InverseSides(MatTranspose(M), M, Adjugate(M));
    } else {
      MatScaleMinusOne(Det(M), Eye());
      NegatedInverse(M, Adjugate(M), Eye());
      InverseSides(MatTranspose(M), M, MatNeg(Adjugate(M)));
    }
  }

  /** The matrix c I + s [w]x + (1 - c) w w^T of Rodrigues' rotation formula, for an axis w
      and the cosine c and sine s of the angle. */
  function AxisAngle(w: Point3, c: real, s: real): Mat3 {
    MatAdd(MatAdd(ScalarMat(c), MatScale(s, Skew(w))), MatScale(1.0 - c, Outer(w, w)))
  }

  /** The scalar matrix k I. */
  function ScalarMat(k: real): Mat3 { Mat3(k, 0.0, 0.0, 0.0, k, 0.0, 0.0, 0.0, k) }

  // The entries of AxisAngle, one at a time.

  lemma AxisAngle00(w: Point3, c: real, s: real)
    ensures AxisAngle(w, c, s).m00 == (c * 1.0 + s * 0.0) + (1.0 - c) * (w.x * w.x)
  {}

  lemma AxisAngle01(w: Point3, c: real, s: real)
    ensures AxisAngle(w, c, s).m01 == (c * 0.0 + s * -w.z) + (1.0 - c) * (w.x * w.y)
  {}

  lemma AxisAngle02(w: Point3, c: real, s: real)
    ensures AxisAngle(w, c, s).m02 == (c * 0.0 + s * w.y) + (1.0 - c) * (w.x * w.z)
  {}

  lemma AxisAngle10(w: Point3, c: real, s: real)
    ensures AxisAngle(w, c, s).m10 == (c * 0.0 + s * w.z) + (1.0 - c) * (w.y * w.x)
  {}

  lemma AxisAngle11(w: Point3, c: real, s: real)
    ensures AxisAngle(w, c, s).m11 == (c * 1.0 + s * 0.0) + (1.0 - c) * (w.y * w.y)
  {}

  lemma AxisAngle12(w: Point3, c: real, s: real)
    ensures AxisAngle(w, c, s).m12 == (c * 0.0 + s * -w.x) + (1.0 - c) * (w.y * w.z)
  {}

  lemma AxisAngle20(w: Point3, c: real, s: real)
    ensures AxisAngle(w, c, s).m20 == (c * 0.0 + s * -w.y) + (1.0 - c) * (w.z * w.x)
  {}

  lemma AxisAngle21(w: Point3, c: real, s: real)
    ensures AxisAngle(w, c, s).m21 == (c * 0.0 + s * w.x) + (1.0 - c) * (w.z * w.y)
  {}

  lemma AxisAngle22(w: Point3, c: real, s: real)
    ensures AxisAngle(w, c, s).m22 == (c * 1.0 + s * 0.0) + (1.0 - c) * (w.z * w.z)
  {}
}
