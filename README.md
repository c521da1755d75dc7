# Rot3 (matrix representation), modelled in Dafny

This project models the exact algebraic core of gtsam's `Rot3` as implemented in
`gtsam/geometry/Rot3M.cpp`. `Rot3` is a 3D rotation stored as the three columns `r1_, r2_, r3_`
of its matrix. The model covers:

- the constructors and factories;
- the accessors `matrix()`, `transpose()`, `column(i)`, `r1()`..`r3()`, `ypr()`/`rpy()`;
- the group operations with their optional Jacobians;
- Rodrigues' formula (`rodriguez`, both overloads);
- the three-branch Log map;
- `retract` and `localCoordinates` in their three coordinate modes.

It then proves what the code promises:

- the matrix layout;
- the group laws;
- `unrotate` undoing `rotate`;
- the closed form `RzRyRx` agreeing with the product of the elementary rotations;
- rodriguez returning a rotation that fixes its axis;
- the rational CALEY chart being a rotation for every omega, with its closed-form extraction inverting it exactly;
- every rotation whose CALEY denominator is nonzero being the CALEY rotation of its extracted coordinates, so that retract undoes localCoordinates in CALEY mode;
- Logmap inverting rodriguez in its generic and half-turn branches.

Modelling choices:

- `double` is the exact type `real`. Floating-point rounding is not modelled.
- The tolerances `1e-9`, `1e-10` and `1e-7` are kept only as branch conditions.
- `Rx`, `Ry`, `Rz`, `RzRyRx` and `rodriguez(w, theta)` take the cosine and sine of each angle as a pair `(c, s)` of reals.
- `sin`, `cos`, `acos`, `sqrt`, the vector norm and `pi` are fields of an `Env` value.
- So are two functions defined outside `Rot3M.cpp`: `Expmap`, used by the EXPMAP chart, and the matrix Cayley transform `Cayley<3>`, used by SLOW_CALEY.
- Every lemma that depends on what they compute says so in its `requires`.
- The optional Jacobian out-parameters `H1`, `H2` become a `WithJacobians` result. Each field is `Some` exactly when the caller asked for that Jacobian.
- Exceptions become `Result` failures carrying the source's message.
- The assertion compiled only without `NDEBUG` (rodriguez' axis check) is switched by a `debug` parameter.

Files:

- `wrappers.dfy`: Option and Result.
- `algebra.dfy` (module `Algebra`): 3-vectors and 3x3 matrices with their products, determinant, skew matrix, adjugate and the algebraic facts about them. These stand in for gtsam's `Point3` and `Matrix`.
- `rot3.dfy` (module `Rot3M`): the value type, constructors, accessors, group operations and group laws.
- `charts.dfy` (module `Rot3Charts`): `Env`, Rodrigues' formula and the rational CALEY chart.
- `coordinates.dfy` (module `Rot3Coordinates`): Logmap, `retract` and `localCoordinates`.
- `cayley_identities.dfy` (module `Rot3CayleyIdentities`): the polynomial identity behind the inverse direction of the CALEY chart. For a rotation matrix A with CALEY denominator D and numerators n, A (2D I + 4 skew(n)) = 2D I - 4 skew(n). Each product of a multiplier with a defining equation of SO(3) is expanded in a lemma of its own.

## Model

| member | source | states |
|---|---|---|
| Rot3M.Matrix | gtsam/geometry/Rot3M.cpp:302-309 | the columns of matrix() are r1_, r2_, r3_ in that order |
| Rot3M.Transpose | gtsam/geometry/Rot3M.cpp:312-319 | transpose() is the transpose of matrix() |
| Rot3M.MatrixInjective | gtsam/geometry/Rot3M.cpp:302-309 | two values with the same matrix() are equal: the matrix is the whole state |
| Rot3M.Identity | gtsam/geometry/Rot3M.cpp:34-37 | the default constructor's matrix is the identity matrix |
| Rot3M.IdentityIsRotation | gtsam/geometry/Rot3M.cpp:34-37 | the default value is a rotation (orthonormal columns, determinant 1) |
| Rot3M.FromColumns | gtsam/geometry/Rot3M.cpp:40-41 | the three given points are the columns of matrix() |
| Rot3M.FromEntries | gtsam/geometry/Rot3M.cpp:44-49 | matrix() holds each given scalar Rij at row i, column j |
| Rot3M.FromMatrix | gtsam/geometry/Rot3M.cpp:52-55 | Rot3(M).matrix() == M for every matrix M |
| Rot3M.FromMatrixOfMatrix | gtsam/geometry/Rot3M.cpp:52-55 | Rot3(R.matrix()) == R: construction from a matrix is the inverse of matrix() |
| Rot3M.Column | gtsam/geometry/Rot3M.cpp:322-331 | column(i) succeeds exactly for i in 1..3 and returns column i of matrix(); any other index fails with invalid_argument and its message |
| Rot3M.R1 | gtsam/geometry/Rot3M.cpp:334 | r1() is the first column, and column(1) returns it |
| Rot3M.R2 | gtsam/geometry/Rot3M.cpp:337 | r2() is the second column, and column(2) returns it |
| Rot3M.R3 | gtsam/geometry/Rot3M.cpp:340 | r3() is the third column, and column(3) returns it |
| Rot3M.Ypr | gtsam/geometry/Rot3M.cpp:350-353 | ypr() is (yaw, pitch, roll): xyz() in reverse order |
| Rot3M.Rpy | gtsam/geometry/Rot3M.cpp:356-359 | rpy() is (roll, pitch, yaw): xyz() in the same order |
| Rot3M.YprReversesRpy | gtsam/geometry/Rot3M.cpp:350-359 | ypr() lists rpy()'s angles in reverse order, and rpy() is xyz() unchanged |
| Rot3M.Rx | gtsam/geometry/Rot3M.cpp:66-72 | the columns of the rotation about x, from cos and sin of the angle |
| Rot3M.Ry | gtsam/geometry/Rot3M.cpp:75-81 | the columns of the rotation about y |
| Rot3M.Rz | gtsam/geometry/Rot3M.cpp:84-90 | the columns of the rotation about z |
| Rot3M.RxIsRotation | gtsam/geometry/Rot3M.cpp:66-72 | Rx is a rotation whenever c^2 + s^2 = 1 |
| Rot3M.RyIsRotation | gtsam/geometry/Rot3M.cpp:75-81 | Ry is a rotation whenever c^2 + s^2 = 1 |
| Rot3M.RzIsRotation | gtsam/geometry/Rot3M.cpp:84-90 | Rz is a rotation whenever c^2 + s^2 = 1 |
| Rot3M.RzRyRx | gtsam/geometry/Rot3M.cpp:93-114 | the closed form with cos and sin of each angle; it has no contract of its own, and RzRyRxIsProduct and RzRyRxIsRotation state its properties |
| Rot3M.RzRyRxIsProduct | gtsam/geometry/Rot3M.cpp:93-114 | the closed form RzRyRx equals Rz(z) * (Ry(y) * Rx(x)) for any reals in place of the cosines and sines |
| Rot3M.RzRyRxIsRotation | gtsam/geometry/Rot3M.cpp:93-114 | RzRyRx is a rotation when each (c, s) pair is on the unit circle |
| Rot3M.Rotate | gtsam/geometry/Rot3M.cpp:185-193 | rotate(p) is matrix() * p; H1 = R skew(-p) and H2 = R, each present exactly when requested |
| Rot3M.MulPoint | gtsam/geometry/Rot3M.cpp:160 | R * p is matrix() * p |
| Rot3M.Mul | gtsam/geometry/Rot3M.cpp:180-182 | (R1 * R2).matrix() is the matrix product R1.matrix() R2.matrix() |
| Rot3M.RotateMul | gtsam/geometry/Rot3M.cpp:180-193 | rotating by a product is rotating by each factor in turn |
| Rot3M.MulAssociative | gtsam/geometry/Rot3M.cpp:180-182 | operator* is associative |
| Rot3M.MulIdentity | gtsam/geometry/Rot3M.cpp:34-37 | the default value is a two-sided unit for operator* |
| Rot3M.MulIsRotation | gtsam/geometry/Rot3M.cpp:180-182 | the product of two rotations is a rotation |
| Rot3M.Compose | gtsam/geometry/Rot3M.cpp:152-157 | compose's matrix is the matrix product; H1 = R2.transpose() and H2 = I, each exactly when requested |
| Rot3M.ComposeIsMul | gtsam/geometry/Rot3M.cpp:152-157 | compose returns the same rotation as operator*, whichever Jacobians are requested |
| Rot3M.Inverse | gtsam/geometry/Rot3M.cpp:163-169 | inverse()'s matrix is the transpose of matrix(); H1 = -matrix() exactly when requested |
| Rot3M.InverseInvolutive | gtsam/geometry/Rot3M.cpp:163-169 | inverting twice gives the original value, for every value |
| Rot3M.InverseIsRotation | gtsam/geometry/Rot3M.cpp:163-169 | the inverse of a rotation is a rotation |
| Rot3M.MulInverse | gtsam/geometry/Rot3M.cpp:163-169 | for a rotation, inverse() is a left and a right inverse for operator* |
| Rot3M.Between | gtsam/geometry/Rot3M.cpp:172-177 | between's matrix is R1^T R2; H1 = -(R2^T R1) and H2 = I, each exactly when requested |
| Rot3M.BetweenRelative | gtsam/geometry/Rot3M.cpp:172-177 | for a rotation R1, R1 * between(R2) == R2, and between(R2) == inverse() * R2 |
| Rot3M.BetweenSelf | gtsam/geometry/Rot3M.cpp:172-177 | between of a rotation and itself is the identity |
| Rot3M.BetweenJacobianChainRule | gtsam/geometry/Rot3M.cpp:152-177 | between's H1 is compose's H1 at (inverse(R1), R2) times inverse's H1, the chain rule for between = compose after inverse |
| Rot3M.Unrotate | gtsam/geometry/Rot3M.cpp:197-207 | unrotate(p) is q = matrix()^T p; H1 = skew(q) and H2 = transpose(), each exactly when requested |
| Rot3M.UnrotateIsInverseRotate | gtsam/geometry/Rot3M.cpp:197-207 | unrotate(p) is rotate(p) by inverse() |
| Rot3M.UnrotateRotate | gtsam/geometry/Rot3M.cpp:185-207 | with orthonormal columns, unrotate(rotate(p)) == p |
| Rot3M.RotateUnrotate | gtsam/geometry/Rot3M.cpp:185-207 | with orthonormal columns, rotate(unrotate(p)) == p |
| Rot3Charts.Rodriguez | gtsam/geometry/Rot3M.cpp:117-137 | fails exactly when the check is compiled and abs(wx^2 + wy^2 + wz^2 - 1) > 1e-9, with domain_error and its message |
| Rot3Charts.RodriguezCheckOnlyFails | gtsam/geometry/Rot3M.cpp:121-124 | the debug check only adds the error path; the release build always returns |
| Rot3Charts.RodriguezFormula | gtsam/geometry/Rot3M.cpp:126-136 | the returned matrix is c I + s [w]x + (1 - c) w w^T |
| Rot3Charts.RodriguezIsRotation | gtsam/geometry/Rot3M.cpp:117-137 | with a unit axis and c^2 + s^2 = 1, the check passes and the result is a rotation |
| Rot3Charts.RodriguezZeroAngle | gtsam/geometry/Rot3M.cpp:126-136 | c = 1, s = 0 gives the identity, whatever the axis |
| Rot3Charts.RodriguezAxisFixed | gtsam/geometry/Rot3M.cpp:117-137 | with a unit axis w, the result maps w to itself, for every (c, s) |
| Rot3Charts.RxIsRodriguez | gtsam/geometry/Rot3M.cpp:66-72 | rodriguez about the x axis is Rx |
| Rot3Charts.RyIsRodriguez | gtsam/geometry/Rot3M.cpp:75-81 | rodriguez about the y axis is Ry |
| Rot3Charts.RzIsRodriguez | gtsam/geometry/Rot3M.cpp:84-90 | rodriguez about the z axis is Rz |
| Rot3Charts.RodriguezVector | gtsam/geometry/Rot3M.cpp:140-144 | below norm 1e-10 the identity; otherwise rodriguez about w / t at the angle t = norm(w) |
| Rot3Charts.AxisOfIsUnit | gtsam/geometry/Rot3M.cpp:141-143 | w / t is a unit vector when t > 0 is the Euclidean norm of w |
| Rot3Charts.RodriguezVectorIsRotation | gtsam/geometry/Rot3M.cpp:140-144 | when norm, cos and sin are the true ones, the vector overload passes the check and returns a rotation |
| Rot3Charts.CayleyRot | gtsam/geometry/Rot3M.cpp:252-261 | the CALEY rotation with f = 1 / (4 + x^2 + y^2 + z^2); it has no contract of its own, and CayleyIsRotation, CayleyRoundTrip and CayleyRotRelation state its properties |
| Rot3Charts.CayleyIsRotation | gtsam/geometry/Rot3M.cpp:252-261 | the rational CALEY matrix is a rotation for every omega |
| Rot3Charts.CayleyRoundTrip | gtsam/geometry/Rot3M.cpp:275-288 | on the CALEY matrix of omega, the extraction's denominator is never zero and the extraction returns omega |
| Rot3Charts.CayleyCoordinates | gtsam/geometry/Rot3M.cpp:279-288 | the closed-form CALEY extraction; it has no contract of its own, and CayleyCoordinatesScaled, CayleyRoundTrip and CayleyOfRotation state its properties |
| Rot3Charts.CayleyDenominatorIsDet | gtsam/geometry/Rot3M.cpp:283-284 | the denominator the code divides 2 by is det(I + A) |
| Rot3Charts.CayleyCoordinatesScaled | gtsam/geometry/Rot3M.cpp:283-288 | whenever the denominator D is nonzero, D times the extraction is -4 times the numerators n |
| Rot3Charts.CayleyRotRelation | gtsam/geometry/Rot3M.cpp:252-261 | for every omega and t, CayleyRot(omega) carries t (2I - skew(omega)) to t (2I + skew(omega)): it is the Cayley transform of skew(omega) / 2 |
| Rot3CayleyIdentities.RotationCayleyRelation | gtsam/geometry/Rot3M.cpp:279-288 | a matrix with orthonormal columns and determinant 1 carries 2D I + 4 skew(n) to 2D I - 4 skew(n), for its CALEY denominator D and numerators n |
| Rot3Charts.CayleyCoordinatesFromParts | gtsam/geometry/Rot3M.cpp:282-288 | the extraction returns (x, y, z) when its denominator is 32q and its numerators are -8q (x, y, z) |
| Rot3Coordinates.LogmapMagnitude | gtsam/geometry/Rot3M.cpp:231-240 | the scalar factor of the generic branch; it has no contract of its own, and MagnitudeAtCosine, LogmapIdentity and LogmapRodriguez state its properties |
| Rot3Coordinates.Logmap | gtsam/geometry/Rot3M.cpp:211-246 | away from trace = -1, the result is the magnitude times (r2.z - r3.y, r3.x - r1.z, r1.y - r2.x) |
| Rot3Coordinates.LogmapIdentity | gtsam/geometry/Rot3M.cpp:232-245 | Logmap(identity) is defined and is the zero vector (Taylor branch) |
| Rot3Coordinates.LogmapInverse | gtsam/geometry/Rot3M.cpp:230-245 | away from trace = -1, the Log map of the inverse is the negated Log map |
| Rot3Coordinates.MagnitudeAtCosine | gtsam/geometry/Rot3M.cpp:233-235 | at trace 1 + 2c in the generic branch, the magnitude is acos(c) / (2 sin(acos(c))) |
| Rot3Coordinates.LogmapRodriguez | gtsam/geometry/Rot3M.cpp:211-246 | the generic branch inverts rodriguez: for a unit axis w and theta = acos(c), sin(theta) = s != 0, Logmap(rodriguez(w, c, s)) == theta w |
| Rot3Coordinates.LogmapHalfTurnZ | gtsam/geometry/Rot3M.cpp:220-224 | at a half turn with r3.z not -1, the r3 branch gives pi w or -pi w |
| Rot3Coordinates.LogmapHalfTurnY | gtsam/geometry/Rot3M.cpp:220-227 | at a half turn with r3.z = -1 and r2.y not -1, the r2 branch gives pi w or -pi w |
| Rot3Coordinates.LogmapHalfTurnX | gtsam/geometry/Rot3M.cpp:220-230 | at a half turn with r3.z = r2.y = -1, the implicit r1 branch gives pi w or -pi w |
| Rot3Coordinates.LogmapHalfTurn | gtsam/geometry/Rot3M.cpp:220-231 | Logmap inverts rodriguez at c = -1 for every unit axis, up to the sign of the axis |
| Rot3Coordinates.BetweenOfRetract | gtsam/geometry/Rot3M.cpp:172-182 | between(R, R * C) == C for a rotation R |
| Rot3Coordinates.CayleyAtZero | gtsam/geometry/Rot3M.cpp:253-261 | at omega = 0 the CALEY matrix is the identity, since f = 1/4 |
| Rot3Coordinates.RetractCayleyZero | gtsam/geometry/Rot3M.cpp:252-261 | retract(0, CALEY) is the rotation itself |
| Rot3Coordinates.Retract | gtsam/geometry/Rot3M.cpp:249-269 | R times the rotation of each mode; it has no contract of its own, and RetractIsRotation, RetractCayleyZero, the two round trips and LocalCoordinatesRetractExpmap state its properties |
| Rot3Coordinates.RetractIsRotation | gtsam/geometry/Rot3M.cpp:249-264 | retract of a rotation is a rotation, always in CALEY mode; in EXPMAP and SLOW_CALEY mode when Expmap, or Cayley<3> of -skew(omega)/2, gives one |
| Rot3Coordinates.LocalCoordinatesRetractCayley | gtsam/geometry/Rot3M.cpp:272-288 | localCoordinates(retract(omega, CALEY), CALEY) == omega from any rotation, with no condition on omega |
| Rot3Coordinates.LocalCoordinates | gtsam/geometry/Rot3M.cpp:272-299 | the coordinates of T relative to R in each mode; it has no contract of its own, and the two CALEY round trips, LocalCoordinatesRetractExpmap and LocalCoordinatesSelf state its properties |
| Rot3Coordinates.CayleyOfRotation | gtsam/geometry/Rot3M.cpp:252-288 | every rotation B with a nonzero CALEY denominator is CayleyRot of its own CALEY coordinates |
| Rot3Coordinates.RetractLocalCoordinatesCayley | gtsam/geometry/Rot3M.cpp:249-288 | retract(localCoordinates(T, CALEY), CALEY) == T for rotations R and T whose relative rotation has a nonzero CALEY denominator |
| Rot3Coordinates.LocalCoordinatesRetractExpmap | gtsam/geometry/Rot3M.cpp:249-274 | localCoordinates(retract(omega, EXPMAP), EXPMAP) is Logmap(Expmap(omega)) from any rotation |
| Rot3Coordinates.LocalCoordinatesSelf | gtsam/geometry/Rot3M.cpp:272-288 | the coordinates of a rotation relative to itself are zero in EXPMAP and in CALEY mode |

## Left out

- Floating-point rounding: `double` is `real`. The thresholds 1e-9, 1e-10 and 1e-7 are kept as the branch conditions they are. No error bound is stated.
- The values of `sin`, `cos`, `acos`, `sqrt`, the vector norm and `pi`: these are library calls and are `Env` parameters. A lemma that needs a property of one says so.
  - `SqrtIsRoot` states the property of sqrt.
  - `sin(acos(c)) = s` is stated for the sine.
  - `norm(w)^2 = |w|^2` is stated for the norm.
- Expmap: defined outside `Rot3M.cpp`; EXPMAP `retract` uses it as the `Env` field `expmap`.
  - Rot3Coordinates.LocalCoordinatesRetractExpmap: reduces the EXPMAP round trip to `Logmap(Expmap(omega))`, because Expmap's body is not part of this model.
- `between_default`: defined outside `Rot3M.cpp`. `between` is modelled as `inverse()` composed with R2, the map whose Jacobians lines 174-175 give.
- `Cayley<3>`: defined outside `Rot3M.cpp`. The SLOW_CALEY branches of `retract` and `localCoordinates` use the abstract `Env` field `cayley`.
  - Nothing is proved about SLOW_CALEY beyond `RetractIsRotation` under a hypothesis on `cayley`.
  - `-Omega/2` is written as the matrix scaled by -0.5.
- `RQ` and `xyz()`: left out because they use only `atan2`, which is not modelled, and generic matrix products. `Ypr` and `Rpy` take the angles `xyz()` would return as their argument.
- The quaternion constructor and `toQuaternion()`: thin wrappers around Eigen's quaternion conversions.
- `equals`: it delegates to `equal_with_abs_tol`, a tolerance comparison outside this file.
- The `assert(false); exit(1)` fallthrough for an unknown mode: the mode is a three-constructor datatype, so the case cannot arise.
- Division by zero: the code divides without checking. The model requires the divisor to be nonzero.
  - `LogmapDefined` covers sqrt in the half-turn branch and `2 sin(theta)` in the generic branch.
  - `CayleyCoordinates` and `LocalCoordinatesDefined` cover the CALEY denominator.
  - `CayleyRoundTrip` proves that the CALEY chart's own matrices always meet this.
- Rot3Coordinates.Logmap: its contract states only the branch away from trace = -1. The half-turn branch is stated by `LogmapHalfTurn` for the rotations rodriguez gives at c = -1, s = 0. The Taylor branch is stated exactly only at the identity (`LogmapIdentity`), since elsewhere it is an approximation.
- Rot3Coordinates.LogmapMagnitude: follows the code near trace 3, which computes 1/2 - (tr - 3)^2 / 12 where its own comment announces the first-order Taylor expansion 1/2 - (tr - 3) / 12. Inside the branch, where abs(tr - 3) <= 1e-7, the two differ by less than 1e-8. No accuracy bound is stated for either, since sin and acos are parameters.
- Rot3Coordinates.LogmapHalfTurn: gives the result only up to the sign of the axis (pi w or -pi w). Which sign comes out depends on the sign of the component of w at the diagonal entry the branch reads, and a half turn about w equals one about -w.
