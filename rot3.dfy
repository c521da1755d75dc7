/** gtsam's Rot3 in its matrix representation (gtsam/geometry/Rot3M.cpp): a rotation of
    R^3 stored as the three columns r1_, r2_, r3_ of its matrix. This module holds the
    value type, its constructors and factories, the accessors, and the group operations
    with the Jacobians they optionally return. Doubles are exact reals; sines and cosines
    are passed in as (c, s) pairs. */
module Rot3M {
  import opened Wrappers
  import opened Algebra

  /** A rotation, stored as its columns. Nothing in the type forces the columns to be
      orthonormal: the constructors from columns, entries or a matrix keep whatever they
      are given, and IsRotation says when a value really is a rotation. */
  datatype Rot3 = Rot3(r1: Point3, r2: Point3, r3: Point3)

  /** The exceptions the source throws, with their messages. */
  datatype Error = DomainError(msg: string) | InvalidArgument(msg: string)

  /** A result together with the Jacobians a caller may request through the source's
      optional out-parameters H1 and H2: each is Some exactly when it was requested. */
  datatype WithJacobians<T> = WithJacobians(value: T, H1: Option<Mat3>, H2: Option<Mat3>)

  /** The value written to an optional Jacobian slot: H when the slot was supplied. */
  function Requested(requested: bool, H: Mat3): (r: Option<Mat3>)
    ensures r.Some? <==> requested
    ensures r.Some? ==> r.value == H
  {
    if requested then Some(H) else None
  }

  // ---------------------------------------------------------------------------------
  // Layout

  /** matrix(): the 3x3 matrix whose columns are r1_, r2_, r3_. */
  function Matrix(R: Rot3): (M: Mat3)
    ensures MatColumn(M, 0) == R.r1 && MatColumn(M, 1) == R.r2 && MatColumn(M, 2) == R.r3
  {
    Mat3(R.r1.x, R.r2.x, R.r3.x,
         R.r1.y, R.r2.y, R.r3.y,
         R.r1.z, R.r2.z, R.r3.z)
  }

  /** transpose(): the matrix whose rows are r1_, r2_, r3_. */
  function Transpose(R: Rot3): (Rt: Mat3)
    ensures Rt == MatTranspose(Matrix(R))
  {
    Mat3(R.r1.x, R.r1.y, R.r1.z,
         R.r2.x, R.r2.y, R.r2.z,
         R.r3.x, R.r3.y, R.r3.z)
  }

  /** Two rotations with the same matrix are the same value. */
  lemma MatrixInjective(A: Rot3, B: Rot3)
    requires Matrix(A) == Matrix(B)
    ensures A == B
  {
    assert A.r1 == MatColumn(Matrix(A), 0) && A.r2 == MatColumn(Matrix(A), 1) && A.r3 == MatColumn(Matrix(A), 2);
  }

  // ---------------------------------------------------------------------------------
  // Constructors

  /** The default constructor: the identity rotation. */
  function Identity(): (R: Rot3)
    ensures Matrix(R) == Eye()
  {
    Rot3(Point3(1.0, 0.0, 0.0), Point3(0.0, 1.0, 0.0), Point3(0.0, 0.0, 1.0))
  }

  /** The constructor from three columns. */
  function FromColumns(r1: Point3, r2: Point3, r3: Point3): (R: Rot3)
    ensures MatColumn(Matrix(R), 0) == r1 && MatColumn(Matrix(R), 1) == r2 && MatColumn(Matrix(R), 2) == r3
  {
    Rot3(r1, r2, r3)
  }

  /** The constructor from nine entries given row by row: entry Rij lands at row i,
      column j of matrix(). */
  function FromEntries(R11: real, R12: real, R13: real,
                       R21: real, R22: real, R23: real,
                       R31: real, R32: real, R33: real): (R: Rot3)
    ensures Matrix(R) == Mat3(R11, R12, R13, R21, R22, R23, R31, R32, R33)
  {
    Rot3(Point3(R11, R21, R31), Point3(R12, R22, R32), Point3(R13, R23, R33))
  }

  /** The constructor from a matrix: its columns become r1_, r2_, r3_. */
  function FromMatrix(M: Mat3): (R: Rot3)
    ensures Matrix(R) == M
  {
    Rot3(Point3(M.m00, M.m10, M.m20), Point3(M.m01, M.m11, M.m21), Point3(M.m02, M.m12, M.m22))
  }

  /** Constructing from a rotation's own matrix gives that rotation back. */
  lemma FromMatrixOfMatrix(R: Rot3)
    ensures FromMatrix(Matrix(R)) == R
  {
    MatrixInjective(FromMatrix(Matrix(R)), R);
  }

  // ---------------------------------------------------------------------------------
  // Accessors

  /** column(index): the column numbered from 1; any other index is an invalid argument. */
  function Column(R: Rot3, index: int): (r: Result<Point3, Error>)
    ensures r.Success? <==> 1 <= index <= 3
    ensures r.Success? ==> r.value == MatColumn(Matrix(R), index - 1)
    ensures r.Failure? ==> r.error == InvalidArgument("Argument to Rot3::column must be 1, 2, or 3")
  {
    if index == 3 then Success(R.r3)
    else if index == 2 then Success(R.r2)
    else if index == 1 then Success(R.r1)
    else Failure(InvalidArgument("Argument to Rot3::column must be 1, 2, or 3"))
  }

  /** r1(): the first column. */
  function R1(R: Rot3): (p: Point3)
    ensures p == MatColumn(Matrix(R), 0) && Column(R, 1) == Success(p)
  {
    R.r1
  }

  /** r2(): the second column. */
  function R2(R: Rot3): (p: Point3)
    ensures p == MatColumn(Matrix(R), 1) && Column(R, 2) == Success(p)
  {
    R.r2
  }

  /** r3(): the third column. */
  function R3(R: Rot3): (p: Point3)
    ensures p == MatColumn(Matrix(R), 2) && Column(R, 3) == Success(p)
  {
    R.r3
  }

  /** ypr(), given the angles (x, y, z) that xyz() returns: the same angles as (yaw, pitch, roll). */
  function Ypr(xyz: Point3): (q: Point3)
    ensures [q.x, q.y, q.z] == [xyz.z, xyz.y, xyz.x]
  {
    Point3(xyz.z, xyz.y, xyz.x)
  }

  /** rpy(), given the angles that xyz() returns: the same angles as (roll, pitch, yaw). */
  function Rpy(xyz: Point3): (q: Point3)
    ensures [q.x, q.y, q.z] == [xyz.x, xyz.y, xyz.z]
  {
    Point3(xyz.x, xyz.y, xyz.z)
  }

  /** ypr() lists the angles of rpy() in reverse order. */
  lemma YprReversesRpy(xyz: Point3)
    ensures Ypr(xyz) == Point3(Rpy(xyz).z, Rpy(xyz).y, Rpy(xyz).x)
    ensures Rpy(xyz) == xyz
  {}

  // ---------------------------------------------------------------------------------
  // Elementary rotations, from the cosine c and sine s of the angle

  /** Rx: rotation about the x axis. */
  function Rx(c: real, s: real): (R: Rot3)
    ensures R.r1 == Point3(1.0, 0.0, 0.0) && R.r2 == Point3(0.0, c, s) && R.r3 == Point3(0.0, -s, c)
  {
    FromEntries(1.0, 0.0, 0.0,
                0.0, c, -s,
                0.0, s, c)
  }

  /** Ry: rotation about the y axis. */
  function Ry(c: real, s: real): (R: Rot3)
    ensures R.r1 == Point3(c, 0.0, -s) && R.r2 == Point3(0.0, 1.0, 0.0) && R.r3 == Point3(s, 0.0, c)
  {
    FromEntries(c, 0.0, s,
                0.0, 1.0, 0.0,
                -s, 0.0, c)
  }

  /** Rz: rotation about the z axis. */
  function Rz(c: real, s: real): (R: Rot3)
    ensures R.r1 == Point3(c, s, 0.0) && R.r2 == Point3(-s, c, 0.0) && R.r3 == Point3(0.0, 0.0, 1.0)
  {
    FromEntries(c, -s, 0.0,
                s, c, 0.0,
                0.0, 0.0, 1.0)
  }

  /** RzRyRx: the closed form of Rz(z) Ry(y) Rx(x), written with the source's products of
      cosines and sines (cx, sx of x, and so on; the source's _cs and _cc are cs and cc). */
  function RzRyRx(cx: real, sx: real, cy: real, sy: real, cz: real, sz: real): Rot3 {
    var ss_ := sx * sy;
    var cs_ := cx * sy;
    var sc_ := sx * cy;
    var cc_ := cx * cy;
    var c_s := cx * sz;
    var s_s := sx * sz;
    var cs := cy * sz;
    var cc := cy * cz;
    var s_c := sx * cz;
    var c_c := cx * cz;
    var ssc, csc, sss, css := ss_ * cz, cs_ * cz, ss_ * sz, cs_ * sz;
    FromEntries(cc, -c_s + ssc, s_s + csc,
                cs, c_c + sss, -s_c + css,
                -sy, sc_, cc_)
  }

  // ---------------------------------------------------------------------------------
  // Group operations

  /** rotate(p): r1_ p.x + r2_ p.y + r3_ p.z. H1 (with respect to the rotation) is
      R skew(-p) and H2 (with respect to the point) is R, each when requested. */
  function Rotate(R: Rot3, p: Point3, wantH1: bool, wantH2: bool): (r: WithJacobians<Point3>)
    ensures r.value == MatVec(Matrix(R), p)
    ensures r.H1 == Requested(wantH1, MatMul(Matrix(R), Skew(Negate(p))))
    ensures r.H2 == Requested(wantH2, Matrix(R))
  {
    var v := Add(Add(Scale(p.x, R.r1), Scale(p.y, R.r2)), Scale(p.z, R.r3));
    CombinationOfColumns(R, p);
    if wantH1 || wantH2 then
      var M := Matrix(R);
      WithJacobians(v, if wantH1 then Some(MatMul(M, Skew(Point3(-p.x, -p.y, -p.z)))) else None,
                       if wantH2 then Some(M) else None)
    else
      WithJacobians(v, None, None)
  }

  /** p.x r1 + p.y r2 + p.z r3 is the matrix-vector product. */
  lemma CombinationOfColumns(R: Rot3, p: Point3)
    ensures Add(Add(Scale(p.x, R.r1), Scale(p.y, R.r2)), Scale(p.z, R.r3)) == MatVec(Matrix(R), p)
  {}

  /** operator*(Point3): rotate without Jacobians. */
  function MulPoint(R: Rot3, p: Point3): (q: Point3)
    ensures q == MatVec(Matrix(R), p)
  {
    Rotate(R, p, false, false).value
  }

  /** operator*(Rot3): rotates each column of R2 by R1. */
  function Mul(R1: Rot3, R2: Rot3): (R: Rot3)
    ensures Matrix(R) == MatMul(Matrix(R1), Matrix(R2))
  {
    var R := Rot3(MulPoint(R1, R2.r1), MulPoint(R1, R2.r2), MulPoint(R1, R2.r3));
    ColumnOfProduct(Matrix(R1), Matrix(R2), 0);
    ColumnOfProduct(Matrix(R1), Matrix(R2), 1);
    ColumnOfProduct(Matrix(R1), Matrix(R2), 2);
    MatEqByColumns(Matrix(R), MatMul(Matrix(R1), Matrix(R2)));
    R
  }

  /** compose(R2): the product R1 R2, with H1 = R2^T and H2 = I when requested. */
  function Compose(R1: Rot3, R2: Rot3, wantH1: bool, wantH2: bool): (r: WithJacobians<Rot3>)
    ensures Matrix(r.value) == MatMul(Matrix(R1), Matrix(R2))
    ensures r.H1 == Requested(wantH1, MatTranspose(Matrix(R2)))
    ensures r.H2 == Requested(wantH2, Eye())
  {
    WithJacobians(Mul(R1, R2),
                  if wantH1 then Some(Transpose(R2)) else None,
                  if wantH2 then Some(Eye()) else None)
  }

  /** inverse(): the rotation whose matrix is the transpose, with H1 = -R when requested. */
  function Inverse(R: Rot3, wantH1: bool): (r: WithJacobians<Rot3>)
    ensures Matrix(r.value) == MatTranspose(Matrix(R))
    ensures r.H1 == Requested(wantH1, MatNeg(Matrix(R)))
    ensures r.H2 == None
  {
    WithJacobians(FromEntries(R.r1.x, R.r1.y, R.r1.z,
                              R.r2.x, R.r2.y, R.r2.z,
                              R.r3.x, R.r3.y, R.r3.z),
                  if wantH1 then Some(MatNeg(Matrix(R))) else None,
                  None)
  }

  /** between(R2): the relative rotation R1^T R2 (the inverse of R1 composed with R2),
      with H1 = -(R2^T R1) and H2 = I when requested. */
  function Between(R1: Rot3, R2: Rot3, wantH1: bool, wantH2: bool): (r: WithJacobians<Rot3>)
    ensures Matrix(r.value) == MatMul(MatTranspose(Matrix(R1)), Matrix(R2))
    ensures r.H1 == Requested(wantH1, MatNeg(MatMul(MatTranspose(Matrix(R2)), Matrix(R1))))
    ensures r.H2 == Requested(wantH2, Eye())
  {
    WithJacobians(Mul(Inverse(R1, false).value, R2),
                  if wantH1 then Some(MatNeg(MatMul(Transpose(R2), Matrix(R1)))) else None,
                  if wantH2 then Some(Eye()) else None)
  }

  /** unrotate(p): q = R^T p, the dot products of p with the columns. H1 is skew(q) and
      H2 is R^T, each when requested. */
  function Unrotate(R: Rot3, p: Point3, wantH1: bool, wantH2: bool): (r: WithJacobians<Point3>)
    ensures r.value == MatVec(MatTranspose(Matrix(R)), p)
    ensures r.H1 == Requested(wantH1, Skew(r.value))
    ensures r.H2 == Requested(wantH2, MatTranspose(Matrix(R)))
  {
    var q := Point3(Dot(R.r1, p), Dot(R.r2, p), Dot(R.r3, p));
    WithJacobians(q,
                  if wantH1 then Some(Skew(q)) else None,
                  if wantH2 then Some(Transpose(R)) else None)
  }

  // ---------------------------------------------------------------------------------
  // Rotations and the group laws

  /** The columns are unit vectors and pairwise orthogonal. */
  predicate OrthonormalColumns(R: Rot3) {
    Dot(R.r1, R.r1) == 1.0 && Dot(R.r2, R.r2) == 1.0 && Dot(R.r3, R.r3) == 1.0 &&
    Dot(R.r1, R.r2) == 0.0 && Dot(R.r1, R.r3) == 0.0 && Dot(R.r2, R.r3) == 0.0
  }

  /** A member of SO(3): orthonormal columns and determinant +1. */
  predicate IsRotation(R: Rot3) {
    OrthonormalColumns(R) && Det(Matrix(R)) == 1.0
  }

  lemma DotSymmetric(p: Point3, q: Point3)
    ensures Dot(p, q) == Dot(q, p)
  {}

  /** Orthonormal columns say exactly that R^T R = I. */
  lemma OrthonormalColumnsMatrix(R: Rot3)
    ensures OrthonormalColumns(R) <==> MatMul(MatTranspose(Matrix(R)), Matrix(R)) == Eye()
  {
    DotSymmetric(R.r1, R.r2);
    DotSymmetric(R.r1, R.r3);
    DotSymmetric(R.r2, R.r3);
  }

  /** A rotation also has orthonormal rows: R R^T = I. */
  lemma RotationRows(R: Rot3)
    requires OrthonormalColumns(R)
    ensures MatMul(Matrix(R), MatTranspose(Matrix(R))) == Eye()
  {
    OrthonormalColumnsMatrix(R);
    OrthogonalRows(Matrix(R));
  }

  /** The standard basis, written with o = 1 and z = 0, is a rotation. */
  // o and z are parameters so that the lemma holds for any terms equal to 1 and 0.
  lemma StandardBasisIsRotation(o: real, z: real)
    requires o == 1.0 && z == 0.0
    ensures IsRotation(Rot3(Point3(o, z, z), Point3(z, o, z), Point3(z, z, o)))
  {}

  lemma IdentityIsRotation()
    ensures IsRotation(Identity())
  {
    StandardBasisIsRotation(1.0, 0.0);
  }

  /** The product of two rotations is a rotation. */
  lemma MulIsRotation(A: Rot3, B: Rot3)
    requires IsRotation(A) && IsRotation(B)
    ensures IsRotation(Mul(A, B))
  {
    var MA, MB := Matrix(A), Matrix(B);
    OrthonormalColumnsMatrix(A);
    OrthonormalColumnsMatrix(B);
    MatTransposeMul(MA, MB);
    MatMulAssoc(MatMul(MatTranspose(MB), MatTranspose(MA)), MA, MB);
    MatMulAssoc(MatTranspose(MB), MatTranspose(MA), MA);
    MatMulEye(MatTranspose(MB));
    OrthonormalColumnsMatrix(Mul(A, B));
    DetMul(MA, MB);
  }

  /** The inverse of a rotation is a rotation. */
  lemma InverseIsRotation(R: Rot3)
    requires IsRotation(R)
    ensures IsRotation(Inverse(R, false).value)
  {
    var Ri := Inverse(R, false).value;
    RotationRows(R);
    MatTransposeInvolutive(Matrix(R));
    OrthonormalColumnsMatrix(Ri);
    DetTranspose(Matrix(R));
  }

  /** Inverting twice gives the original value back. */
  lemma InverseInvolutive(R: Rot3)
    ensures Inverse(Inverse(R, false).value, false).value == R
  {
    MatTransposeInvolutive(Matrix(R));
    MatrixInjective(Inverse(Inverse(R, false).value, false).value, R);
  }

  lemma MulAssociative(A: Rot3, B: Rot3, C: Rot3)
    ensures Mul(Mul(A, B), C) == Mul(A, Mul(B, C))
  {
    MatMulAssoc(Matrix(A), Matrix(B), Matrix(C));
    MatrixInjective(Mul(Mul(A, B), C), Mul(A, Mul(B, C)));
  }

  lemma MulIdentity(R: Rot3)
    ensures Mul(R, Identity()) == R && Mul(Identity(), R) == R
  {
    MatMulEye(Matrix(R));
    MatrixInjective(Mul(R, Identity()), R);
    MatrixInjective(Mul(Identity(), R), R);
  }

  /** For a rotation, inverse() is a two-sided inverse. */
  lemma MulInverse(R: Rot3)
    requires IsRotation(R)
    ensures Mul(R, Inverse(R, false).value) == Identity()
    ensures Mul(Inverse(R, false).value, R) == Identity()
  {
    OrthonormalColumnsMatrix(R);
    RotationRows(R);
    MatrixInjective(Mul(R, Inverse(R, false).value), Identity());
    MatrixInjective(Mul(Inverse(R, false).value, R), Identity());
  }

  /** compose() returns the same rotation as operator*. */
  lemma ComposeIsMul(R1: Rot3, R2: Rot3, wantH1: bool, wantH2: bool)
    ensures Compose(R1, R2, wantH1, wantH2).value == Mul(R1, R2)
  {
    MatrixInjective(Compose(R1, R2, wantH1, wantH2).value, Mul(R1, R2));
  }

  /** between(R2) is the rotation that carries R1 to R2. */
  lemma BetweenRelative(R1: Rot3, R2: Rot3)
    requires IsRotation(R1)
    ensures Mul(R1, Between(R1, R2, false, false).value) == R2
    ensures Between(R1, R2, false, false).value == Mul(Inverse(R1, false).value, R2)
  {
    var B := Between(R1, R2, false, false).value;
    RotationRows(R1);
    MatMulAssoc(Matrix(R1), MatTranspose(Matrix(R1)), Matrix(R2));
    MatMulEye(Matrix(R2));
    MatrixInjective(Mul(R1, B), R2);
    MatrixInjective(B, Mul(Inverse(R1, false).value, R2));
  }

  lemma BetweenSelf(R: Rot3)
    requires IsRotation(R)
    ensures Between(R, R, false, false).value == Identity()
  {
    OrthonormalColumnsMatrix(R);
    MatrixInjective(Between(R, R, false, false).value, Identity());
  }

  /** The Jacobian H1 of between() is the chain rule applied to between = compose after
      inverse: compose's H1 (taken at inverse(R1) and R2) times inverse's H1. */
  lemma BetweenJacobianChainRule(R1: Rot3, R2: Rot3)
    ensures Between(R1, R2, true, false).H1
         == Some(MatMul(Compose(Inverse(R1, false).value, R2, true, false).H1.value,
                        Inverse(R1, true).H1.value))
  {
    MatMulNeg(MatTranspose(Matrix(R2)), Matrix(R1));
  }

  // ---------------------------------------------------------------------------------
  // Transforming points

  lemma RotateMul(A: Rot3, B: Rot3, p: Point3)
    ensures MulPoint(Mul(A, B), p) == MulPoint(A, MulPoint(B, p))
  {
    MatVecMul(Matrix(A), Matrix(B), p);
  }

  /** unrotate() is rotate() by the inverse. */
  lemma UnrotateIsInverseRotate(R: Rot3, p: Point3)
    ensures Unrotate(R, p, false, false).value == MulPoint(Inverse(R, false).value, p)
  {}

  /** With orthonormal columns, unrotate() undoes rotate(). */
  lemma UnrotateRotate(R: Rot3, p: Point3)
    requires OrthonormalColumns(R)
    ensures Unrotate(R, Rotate(R, p, false, false).value, false, false).value == p
  {
    OrthonormalColumnsMatrix(R);
    MatVecMul(MatTranspose(Matrix(R)), Matrix(R), p);
    MatVecEye(p);
  }

  /** With orthonormal columns, rotate() undoes unrotate(). */
  lemma RotateUnrotate(R: Rot3, p: Point3)
    requires OrthonormalColumns(R)
    ensures Rotate(R, Unrotate(R, p, false, false).value, false, false).value == p
  {
    RotationRows(R);
    MatVecMul(Matrix(R), MatTranspose(Matrix(R)), p);
    MatVecEye(p);
  }

  /** Rx(c, s) is a rotation when (c, s) lies on the unit circle. */
  lemma RxIsRotation(c: real, s: real)
    requires c * c + s * s == 1.0
    ensures IsRotation(Rx(c, s))
  {
    var R := Rx(c, s);
    assert Dot(R.r1, R.r1) == Dot3(1.0, 0.0, 0.0, 1.0, 0.0, 0.0);
    assert Dot(R.r2, R.r2) == Dot3(0.0, c, s, 0.0, c, s);
    assert Dot(R.r3, R.r3) == Dot3(0.0, -s, c, 0.0, -s, c);
    assert Dot(R.r1, R.r2) == Dot3(1.0, 0.0, 0.0, 0.0, c, s);
    assert Dot(R.r1, R.r3) == Dot3(1.0, 0.0, 0.0, 0.0, -s, c);
    assert Dot(R.r2, R.r3) == Dot3(0.0, c, s, 0.0, -s, c);
    assert Det(Matrix(R)) == Det3(1.0, 0.0, 0.0, 0.0, c, -s, 0.0, s, c);
  }

  /** Ry(c, s) is a rotation when (c, s) lies on the unit circle. */
  lemma RyIsRotation(c: real, s: real)
    requires c * c + s * s == 1.0
    ensures IsRotation(Ry(c, s))
  {
    var R := Ry(c, s);
    assert Dot(R.r1, R.r1) == Dot3(c, 0.0, -s, c, 0.0, -s);
    assert Dot(R.r2, R.r2) == Dot3(0.0, 1.0, 0.0, 0.0, 1.0, 0.0);
    assert Dot(R.r3, R.r3) == Dot3(s, 0.0, c, s, 0.0, c);
    assert Dot(R.r1, R.r2) == Dot3(c, 0.0, -s, 0.0, 1.0, 0.0);
    assert Dot(R.r1, R.r3) == Dot3(c, 0.0, -s, s, 0.0, c);
    assert Dot(R.r2, R.r3) == Dot3(0.0, 1.0, 0.0, s, 0.0, c);
    assert Det(Matrix(R)) == Det3(c, 0.0, s, 0.0, 1.0, 0.0, -s, 0.0, c);
  }

  /** Rz(c, s) is a rotation when (c, s) lies on the unit circle. */
  lemma RzIsRotation(c: real, s: real)
    requires c * c + s * s == 1.0
    ensures IsRotation(Rz(c, s))
  {
    var R := Rz(c, s);
    assert Dot(R.r1, R.r1) == Dot3(c, s, 0.0, c, s, 0.0);
    assert Dot(R.r2, R.r2) == Dot3(-s, c, 0.0, -s, c, 0.0);
    assert Dot(R.r3, R.r3) == Dot3(0.0, 0.0, 1.0, 0.0, 0.0, 1.0);
    assert Dot(R.r1, R.r2) == Dot3(c, s, 0.0, -s, c, 0.0);
    assert Dot(R.r1, R.r3) == Dot3(c, s, 0.0, 0.0, 0.0, 1.0);
    assert Dot(R.r2, R.r3) == Dot3(-s, c, 0.0, 0.0, 0.0, 1.0);
    assert Det(Matrix(R)) == Det3(c, -s, 0.0, s, c, 0.0, 0.0, 0.0, 1.0);
  }

  /** Ry(y) Rx(x), entry by entry. */
  lemma RyRxEntries(cx: real, sx: real, cy: real, sy: real)
    ensures Matrix(Mul(Ry(cy, sy), Rx(cx, sx)))
         == Mat3(cy, sx * sy, cx * sy,
                0.0, cx, -sx,
                -sy, cy * sx, cx * cy)
  {
    assert Matrix(Mul(Ry(cy, sy), Rx(cx, sx)))
        == Mat3(Dot3(cy, 0.0, sy, 1.0, 0.0, 0.0),
                Dot3(cy, 0.0, sy, 0.0, cx, sx),
                Dot3(cy, 0.0, sy, 0.0, -sx, cx),
                Dot3(0.0, 1.0, 0.0, 1.0, 0.0, 0.0),
                Dot3(0.0, 1.0, 0.0, 0.0, cx, sx),
                Dot3(0.0, 1.0, 0.0, 0.0, -sx, cx),
                Dot3(-sy, 0.0, cy, 1.0, 0.0, 0.0),
                Dot3(-sy, 0.0, cy, 0.0, cx, sx),
                Dot3(-sy, 0.0, cy, 0.0, -sx, cx));
  }

  /** Rz(z) (Ry(y) Rx(x)) with the inner product in closed form. */
  lemma ZYXStep(cx: real, sx: real, cy: real, sy: real, cz: real, sz: real)
    ensures Mul(Rz(cz, sz), Mul(Ry(cy, sy), Rx(cx, sx)))
         == Mul(Rz(cz, sz), FromEntries(cy, sx * sy, cx * sy, 0.0, cx, -sx, -sy, cy * sx, cx * cy))
  {
    RyRxEntries(cx, sx, cy, sy);
    MatrixInjective(Mul(Ry(cy, sy), Rx(cx, sx)),
                    FromEntries(cy, sx * sy, cx * sy, 0.0, cx, -sx, -sy, cy * sx, cx * cy));
  }

  /** The closed form and Rz(z) times the product Ry(y) Rx(x), one entry at a time. */
  lemma ClosedEntry00(cx: real, sx: real, cy: real, sy: real, cz: real, sz: real)
    ensures Matrix(RzRyRx(cx, sx, cy, sy, cz, sz)).m00 == Matrix(Mul(Rz(cz, sz), FromEntries(cy, sx * sy, cx * sy, 0.0, cx, -sx, -sy, cy * sx, cx * cy))).m00
  {}

  lemma ClosedEntry01(cx: real, sx: real, cy: real, sy: real, cz: real, sz: real)
    ensures Matrix(RzRyRx(cx, sx, cy, sy, cz, sz)).m01 == Matrix(Mul(Rz(cz, sz), FromEntries(cy, sx * sy, cx * sy, 0.0, cx, -sx, -sy, cy * sx, cx * cy))).m01
  {}

  lemma ClosedEntry02(cx: real, sx: real, cy: real, sy: real, cz: real, sz: real)
    ensures Matrix(RzRyRx(cx, sx, cy, sy, cz, sz)).m02 == Matrix(Mul(Rz(cz, sz), FromEntries(cy, sx * sy, cx * sy, 0.0, cx, -sx, -sy, cy * sx, cx * cy))).m02
  {}

  lemma ClosedEntry10(cx: real, sx: real, cy: real, sy: real, cz: real, sz: real)
    ensures Matrix(RzRyRx(cx, sx, cy, sy, cz, sz)).m10 == Matrix(Mul(Rz(cz, sz), FromEntries(cy, sx * sy, cx * sy, 0.0, cx, -sx, -sy, cy * sx, cx * cy))).m10
  {}

  lemma ClosedEntry11(cx: real, sx: real, cy: real, sy: real, cz: real, sz: real)
    ensures Matrix(RzRyRx(cx, sx, cy, sy, cz, sz)).m11 == Matrix(Mul(Rz(cz, sz), FromEntries(cy, sx * sy, cx * sy, 0.0, cx, -sx, -sy, cy * sx, cx * cy))).m11
  {}

  lemma ClosedEntry12(cx: real, sx: real, cy: real, sy: real, cz: real, sz: real)
    ensures Matrix(RzRyRx(cx, sx, cy, sy, cz, sz)).m12 == Matrix(Mul(Rz(cz, sz), FromEntries(cy, sx * sy, cx * sy, 0.0, cx, -sx, -sy, cy * sx, cx * cy))).m12
  {}

  lemma ClosedEntry20(cx: real, sx: real, cy: real, sy: real, cz: real, sz: real)
    ensures Matrix(RzRyRx(cx, sx, cy, sy, cz, sz)).m20 == Matrix(Mul(Rz(cz, sz), FromEntries(cy, sx * sy, cx * sy, 0.0, cx, -sx, -sy, cy * sx, cx * cy))).m20
  {}

  lemma ClosedEntry21(cx: real, sx: real, cy: real, sy: real, cz: real, sz: real)
    ensures Matrix(RzRyRx(cx, sx, cy, sy, cz, sz)).m21 == Matrix(Mul(Rz(cz, sz), FromEntries(cy, sx * sy, cx * sy, 0.0, cx, -sx, -sy, cy * sx, cx * cy))).m21
  {}

  lemma ClosedEntry22(cx: real, sx: real, cy: real, sy: real, cz: real, sz: real)
    ensures Matrix(RzRyRx(cx, sx, cy, sy, cz, sz)).m22 == Matrix(Mul(Rz(cz, sz), FromEntries(cy, sx * sy, cx * sy, 0.0, cx, -sx, -sy, cy * sx, cx * cy))).m22
  {}

  lemma ClosedIsRzTimes(cx: real, sx: real, cy: real, sy: real, cz: real, sz: real)
    ensures RzRyRx(cx, sx, cy, sy, cz, sz) == Mul(Rz(cz, sz), FromEntries(cy, sx * sy, cx * sy, 0.0, cx, -sx, -sy, cy * sx, cx * cy))
  {
    ClosedEntry00(cx, sx, cy, sy, cz, sz);
    ClosedEntry01(cx, sx, cy, sy, cz, sz);
    ClosedEntry02(cx, sx, cy, sy, cz, sz);
    ClosedEntry10(cx, sx, cy, sy, cz, sz);
    ClosedEntry11(cx, sx, cy, sy, cz, sz);
    ClosedEntry12(cx, sx, cy, sy, cz, sz);
    ClosedEntry20(cx, sx, cy, sy, cz, sz);
    ClosedEntry21(cx, sx, cy, sy, cz, sz);
    ClosedEntry22(cx, sx, cy, sy, cz, sz);
    MatrixInjective(RzRyRx(cx, sx, cy, sy, cz, sz), Mul(Rz(cz, sz), FromEntries(cy, sx * sy, cx * sy, 0.0, cx, -sx, -sy, cy * sx, cx * cy)));
  }

  /** The closed form RzRyRx agrees with composing the three elementary rotations,
      for any reals standing in for the cosines and sines. */
  lemma RzRyRxIsProduct(cx: real, sx: real, cy: real, sy: real, cz: real, sz: real)
    ensures RzRyRx(cx, sx, cy, sy, cz, sz) == Mul(Rz(cz, sz), Mul(Ry(cy, sy), Rx(cx, sx)))
  {
    ZYXStep(cx, sx, cy, sy, cz, sz);
    ClosedIsRzTimes(cx, sx, cy, sy, cz, sz);
  }

  /** With each pair on the unit circle, the closed form RzRyRx is a rotation. */
  lemma RzRyRxIsRotation(cx: real, sx: real, cy: real, sy: real, cz: real, sz: real)
    requires cx * cx + sx * sx == 1.0 && cy * cy + sy * sy == 1.0 && cz * cz + sz * sz == 1.0
    ensures IsRotation(RzRyRx(cx, sx, cy, sy, cz, sz))
  {
    RxIsRotation(cx, sx);
    RyIsRotation(cy, sy);
    RzIsRotation(cz, sz);
    MulIsRotation(Ry(cy, sy), Rx(cx, sx));
    MulIsRotation(Rz(cz, sz), Mul(Ry(cy, sy), Rx(cx, sx)));
    RzRyRxIsProduct(cx, sx, cy, sy, cz, sz);
  }
}
