/**
 The generated prediction is the upper triangle of `A P A' + G Q G'` for the Jacobians of the
 error dynamics, and running it keeps a covariance a covariance.
 */
module CovarianceRuns {
  import opened Attitude
  import opened CovarianceEntries
  import opened CovariancePrediction
  import opened ErrorDynamics
  import opened LinearAlgebra
  import opened Reals

  // Which entry of the state Jacobian `a` each temporary is.

  ghost predicate AttitudeEntries(c: Terms, a: Mat) {
    && a(0, 0) == a(1, 1) == a(2, 2) == c.t23
    && a(0, 9) == c.t8 && a(0, 10) == c.t15 && a(0, 11) == c.t20
    && a(1, 9) == c.t29 && a(1, 10) == c.t36 && a(1, 11) == c.t34
    && a(2, 9) == c.t43 && a(2, 10) == c.t44 && a(2, 11) == c.t45
  }

  ghost predicate TurnedEntries(c: Terms, a: Mat) {
    && a(3, 0) == 0.0 && a(3, 1) == c.t75 && a(3, 2) == c.t69
    && a(4, 0) == c.t110 && a(4, 1) == 0.0 && a(4, 2) == c.t104
    && a(5, 0) == c.t131 && a(5, 1) == c.t129 && a(5, 2) == 0.0
  }

  ghost predicate BiasEntries(c: Terms, a: Mat) {
    && a(3, 12) == -c.t80 && a(3, 13) == -c.t59 && a(3, 14) == -c.t55
    && a(4, 12) == -c.t102 && a(4, 13) == -c.t113 && a(4, 14) == -c.t107
    && a(5, 12) == -c.t128 && a(5, 13) == -c.t130 && a(5, 14) == -c.t133
  }

  ghost predicate StateEntries(c: Terms, a: Mat, dt: real) {
    AttitudeEntries(c, a) && TurnedEntries(c, a) && BiasEntries(c, a) && a(6, 3) == a(7, 4) == a(8, 5) == dt
  }

  lemma SparseIsRowDot(c: Terms, a: Mat, dt: real, i: int, f: Vec)
    requires StateEntries(c, a, dt) && 0 <= i < 15
    ensures SparseDot(a, i, f) == RowDot(c, dt, i, f)
  {
  }

  function Vector(v: Vec): Vector3 {
    Vector3(v(0), v(1), v(2))
  }

  // The temporaries are the entries of the two Jacobians. Reals are named as in the state:
  // quaternion (w, x, y, z), bias-corrected acceleration (a, b, c).

  lemma DiagonalTerm(t: real, dt: real, w: real, x: real, y: real, z: real)
    requires t == Sq(z) * dt - Sq(w) * dt + Sq(y) * dt - Sq(x) * dt
    ensures t == Times(-dt, HomogeneousDiagonal(w, x, y, z))
  {
    calc {
      t;
      z * z * dt - w * w * dt + y * y * dt - x * x * dt;
      Times(-dt, w * w + x * x - y * y - z * z);
    }
  }

  lemma UpperTerm(t: real, dt: real, w: real, x: real, y: real, z: real)
    requires t == -(2.0 * x * y) * dt + 2.0 * w * z * dt
    ensures t == Times(-dt, Upper(x, y, w, z))
  {
    assert Times(-dt, 2.0 * (x * y) - 2.0 * (w * z)) == -(2.0 * x * y) * dt + 2.0 * w * z * dt;
  }

  lemma LowerTerm(t: real, dt: real, w: real, x: real, y: real, z: real)
    requires t == -(2.0 * x * y) * dt - 2.0 * w * z * dt
    ensures t == Times(-dt, Lower(x, y, w, z))
  {
    assert Times(-dt, 2.0 * (x * y) + 2.0 * (w * z)) == -(2.0 * x * y) * dt - 2.0 * w * z * dt;
  }

  ghost predicate AttitudeGeometry0(s: GeometryTerms, state: Vec, dt: real) {
    && s.t8 == Times(-dt, HomogeneousDiagonal(state(0), state(1), state(2), state(3)))
    && s.t15 == Times(-dt, Upper(state(1), state(2), state(0), state(3)))
    && s.t20 == Times(-dt, Lower(state(3), state(1), state(0), state(2)))
  }

  lemma Term8(state: Vec, accel: Vec, dt: real, s: GeometryTerms)
    requires s == StateGeometry(state, accel, dt)
    ensures s.t8 == Times(-dt, HomogeneousDiagonal(state(0), state(1), state(2), state(3)))
  {
    DiagonalTerm(s.t8, dt, state(0), state(1), state(2), state(3));
  }

  lemma Term15(state: Vec, accel: Vec, dt: real, s: GeometryTerms)
    requires s == StateGeometry(state, accel, dt)
    ensures s.t15 == Times(-dt, Upper(state(1), state(2), state(0), state(3)))
  {
    UpperTerm(s.t15, dt, state(0), state(1), state(2), state(3));
  }

  lemma Term20(state: Vec, accel: Vec, dt: real, s: GeometryTerms)
    requires s == StateGeometry(state, accel, dt)
    ensures s.t20 == Times(-dt, Lower(state(3), state(1), state(0), state(2)))
  {
    LowerTerm(s.t20, dt, state(0), state(3), state(1), state(2));
  }

  lemma AttitudeTerms0(state: Vec, accel: Vec, dt: real, s: GeometryTerms)
    requires s == StateGeometry(state, accel, dt)
    ensures AttitudeGeometry0(s, state, dt)
  {
    Term8(state, accel, dt, s);
    Term15(state, accel, dt, s);
    Term20(state, accel, dt, s);
  }

  ghost predicate AttitudeGeometry1(s: GeometryTerms, state: Vec, dt: real) {
    && s.t29 == Times(-dt, Lower(state(1), state(2), state(0), state(3)))
    && s.t36 == Times(-dt, HomogeneousDiagonal(state(0), state(2), state(3), state(1)))
    && s.t34 == Times(-dt, Upper(state(2), state(3), state(0), state(1)))
  }

  lemma Term29(state: Vec, accel: Vec, dt: real, s: GeometryTerms)
    requires s == StateGeometry(state, accel, dt)
    ensures s.t29 == Times(-dt, Lower(state(1), state(2), state(0), state(3)))
  {
    LowerTerm(s.t29, dt, state(0), state(1), state(2), state(3));
  }

  lemma Term36(state: Vec, accel: Vec, dt: real, s: GeometryTerms)
    requires s == StateGeometry(state, accel, dt)
    ensures s.t36 == Times(-dt, HomogeneousDiagonal(state(0), state(2), state(3), state(1)))
  {
    DiagonalTerm(s.t36, dt, state(0), state(2), state(3), state(1));
  }

  lemma Term34(state: Vec, accel: Vec, dt: real, s: GeometryTerms)
    requires s == StateGeometry(state, accel, dt)
    ensures s.t34 == Times(-dt, Upper(state(2), state(3), state(0), state(1)))
  {
    UpperTerm(s.t34, dt, state(0), state(2), state(3), state(1));
  }

  lemma AttitudeTerms1(state: Vec, accel: Vec, dt: real, s: GeometryTerms)
    requires s == StateGeometry(state, accel, dt)
    ensures AttitudeGeometry1(s, state, dt)
  {
    Term29(state, accel, dt, s);
    Term36(state, accel, dt, s);
    Term34(state, accel, dt, s);
  }

  ghost predicate AttitudeGeometry2(s: GeometryTerms, state: Vec, dt: real) {
    && s.t43 == Times(-dt, Upper(state(3), state(1), state(0), state(2)))
    && s.t44 == Times(-dt, Lower(state(2), state(3), state(0), state(1)))
    && s.t45 == Times(-dt, HomogeneousDiagonal(state(0), state(3), state(1), state(2)))
  }

  lemma Term43(state: Vec, accel: Vec, dt: real, s: GeometryTerms)
    requires s == StateGeometry(state, accel, dt)
    ensures s.t43 == Times(-dt, Upper(state(3), state(1), state(0), state(2)))
  {
    UpperTerm(s.t43, dt, state(0), state(3), state(1), state(2));
  }

  lemma Term44(state: Vec, accel: Vec, dt: real, s: GeometryTerms)
    requires s == StateGeometry(state, accel, dt)
    ensures s.t44 == Times(-dt, Lower(state(2), state(3), state(0), state(1)))
  {
    LowerTerm(s.t44, dt, state(0), state(2), state(3), state(1));
  }

  lemma Term45(state: Vec, accel: Vec, dt: real, s: GeometryTerms)
    requires s == StateGeometry(state, accel, dt)
    ensures s.t45 == Times(-dt, HomogeneousDiagonal(state(0), state(3), state(1), state(2)))
  {
    DiagonalTerm(s.t45, dt, state(0), state(3), state(1), state(2));
  }

  lemma AttitudeTerms2(state: Vec, accel: Vec, dt: real, s: GeometryTerms)
    requires s == StateGeometry(state, accel, dt)
    ensures AttitudeGeometry2(s, state, dt)
  {
    Term43(state, accel, dt, s);
    Term44(state, accel, dt, s);
    Term45(state, accel, dt, s);
  }

  lemma NormTerm(state: Vec, accel: Vec, dt: real)
    ensures StateGeometry(state, accel, dt).t23 == NormSquared(VStateToState(state).quat)
  {
  }

  ghost predicate BiasGeometry(s: Terms, state: Vec) {
    && s.t79 == UnitDiagonal(state(2), state(3))
    && s.t58 == Upper(state(1), state(2), state(0), state(3))
    && s.t54 == Lower(state(3), state(1), state(0), state(2))
    && s.t101 == Lower(state(1), state(2), state(0), state(3))
    && s.t112 == UnitDiagonal(state(3), state(1))
    && s.t106 == Upper(state(2), state(3), state(0), state(1))
    && s.t71 == Upper(state(3), state(1), state(0), state(2))
    && s.t72 == Lower(state(2), state(3), state(0), state(1))
    && s.t132 == UnitDiagonal(state(1), state(2))
  }

  lemma BiasTerms(state: Vec, accel: Vec, accelVar: Vec, gyroVar: real, dt: real)
    ensures BiasGeometry(StateTerms(state, accel, accelVar, gyroVar, dt), state)
  {
  }

  // The acceleration turned by the homogeneous matrix fills the velocity-attitude block.

  lemma TurnedProducts(dt: real, r: Vector3, a: real, b: real, c: real, s: Vector3)
    requires s.x == -r.x && s.y == -r.y && s.z == -r.z
    ensures var t := Times(dt, Dot3(r.x, r.y, r.z, a, b, c));
            && Turned(dt, r.z, c, r.y, b, a, r.x) == Turned(dt, r.x, a, r.z, c, b, r.y)
                 == Turned(dt, a, r.x, c, r.z, b, r.y) == t
            && Turned(dt, a, s.x, c, s.z, b, s.y) == -t
  {
    assert dt * (a * -r.x + c * -r.z + b * -r.y) == -(dt * (r.x * a + r.y * b + r.z * c));
  }

  function TurnedAccel(state: Vec, accel: Vec): Vector3 {
    var s := VStateToState(state);
    RotateHomogeneous(s.quat, Sub3(Vector(accel), s.accelBias))
  }

  ghost predicate TurnedGeometry(s: GeometryTerms, v: Vector3, dt: real) {
    s.t104 == Times(dt, v.x) == -s.t129 && s.t131 == Times(dt, v.y) == -s.t69 && s.t75 == Times(dt, v.z) == -s.t110
  }

  lemma TurnedTermX(state: Vec, accel: Vec, dt: real, s: GeometryTerms)
    requires s == StateGeometry(state, accel, dt)
    ensures s.t104 == Times(dt, TurnedAccel(state, accel).x) == -s.t129
  {
    var a, b, c := accel(0) - state(13), accel(1) - state(14), accel(2) - state(15);
    assert Minus(accel(0), state(13)) == a && Minus(accel(1), state(14)) == b && Minus(accel(2), state(15)) == c;
    var r := HomogeneousRow(VStateToState(state).quat, 0);
    assert r.x == -Sq(state(3)) + (Sq(state(0)) + Sq(state(1))) + -Sq(state(2)) && r.y == s.t58 && r.z == s.t54;
    TurnedProducts(dt, r, a, b, c, Vector3(
      (Sq(state(3)) + Sq(state(2))) + -Sq(state(0)) + -Sq(state(1)),
      2.0 * state(0) * state(3) + -(2.0 * state(1) * state(2)),
      -(2.0 * state(1) * state(3)) + -(2.0 * state(0) * state(2))));
  }

  lemma TurnedTermY(state: Vec, accel: Vec, dt: real, s: GeometryTerms)
    requires s == StateGeometry(state, accel, dt)
    ensures s.t131 == Times(dt, TurnedAccel(state, accel).y) == -s.t69
  {
    var a, b, c := accel(0) - state(13), accel(1) - state(14), accel(2) - state(15);
    assert Minus(accel(0), state(13)) == a && Minus(accel(1), state(14)) == b && Minus(accel(2), state(15)) == c;
    var r := HomogeneousRow(VStateToState(state).quat, 1);
    assert r.x == s.t101 && r.y == (-Sq(state(3)) + Sq(state(2))) + (Sq(state(0)) + -Sq(state(1))) && r.z == s.t106;
    TurnedProducts(dt, r, a, b, c, Vector3(
      -(2.0 * state(0) * state(3)) + -(2.0 * state(1) * state(2)),
      (Sq(state(3)) + -Sq(state(2))) + (Sq(state(1)) + -Sq(state(0))),
      2.0 * state(0) * state(1) + -(2.0 * state(2) * state(3))));
  }

  lemma TurnedTermZ(state: Vec, accel: Vec, dt: real, s: GeometryTerms)
    requires s == StateGeometry(state, accel, dt)
    ensures s.t75 == Times(dt, TurnedAccel(state, accel).z) == -s.t110
  {
    var a, b, c := accel(0) - state(13), accel(1) - state(14), accel(2) - state(15);
    assert Minus(accel(0), state(13)) == a && Minus(accel(1), state(14)) == b && Minus(accel(2), state(15)) == c;
    var r := HomogeneousRow(VStateToState(state).quat, 2);
    assert r.x == s.t71 && r.y == s.t72 && r.z == (Sq(state(3)) + -Sq(state(2))) + (Sq(state(0)) + -Sq(state(1)));
    TurnedProducts(dt, r, a, b, c, Vector3(
      -(2.0 * state(1) * state(3)) + 2.0 * state(0) * state(2),
      -(2.0 * state(0) * state(1)) + -(2.0 * state(2) * state(3)),
      (-Sq(state(3)) + Sq(state(2))) + (Sq(state(1)) + -Sq(state(0)))));
  }

  ghost function StateA(state: Vec, accel: Vec, dt: real): Mat {
    StateJacobian(VStateToState(state), Vector(accel), dt)
  }

  ghost function NoiseG(state: Vec, dt: real): Mat {
    NoiseJacobian(VStateToState(state), dt)
  }

  lemma AttitudeBlock(s: GeometryTerms, state: Vec, accel: Vec, accelVar: Vec, gyroVar: real, dt: real)
    requires s.t23 == NormSquared(VStateToState(state).quat)
    requires AttitudeGeometry0(s, state, dt) && AttitudeGeometry1(s, state, dt) && AttitudeGeometry2(s, state, dt)
    ensures AttitudeEntries(WithVariances(s, accelVar, gyroVar, dt), StateA(state, accel, dt))
  {
  }

  lemma TurnedSigns(dt: real, u: real)
    ensures Times(-dt, Negated(u)) == Times(dt, u) && Times(-dt, u) == -Times(dt, u) && Times(-dt, 0.0) == 0.0
  {
    assert -dt * -u == dt * u && -dt * u == -(dt * u);
  }

  lemma TurnedBlock(s: GeometryTerms, state: Vec, accel: Vec, accelVar: Vec, gyroVar: real, dt: real)
    requires TurnedGeometry(s, TurnedAccel(state, accel), dt)
    ensures TurnedEntries(WithVariances(s, accelVar, gyroVar, dt), StateA(state, accel, dt))
  {
    var v := TurnedAccel(state, accel);
    TurnedSigns(dt, v.x);
    TurnedSigns(dt, v.y);
    TurnedSigns(dt, v.z);
  }

  lemma NegatedProduct(t: real, u: real, dt: real)
    requires t == u * dt
    ensures -t == Times(-dt, u)
  {
    assert -(u * dt) == -dt * u;
  }

  /** The columns as the code scales them. */
  ghost predicate ScaledColumns(c: Terms, dt: real) {
    && -c.t80 == Times(-dt, c.t79) && -c.t59 == Times(-dt, c.t58) && -c.t55 == Times(-dt, c.t54)
    && -c.t102 == Times(-dt, c.t101) && -c.t113 == Times(-dt, c.t112) && -c.t107 == Times(-dt, c.t106)
    && -c.t128 == Times(-dt, c.t71) && -c.t130 == Times(-dt, c.t72) && -c.t133 == Times(-dt, c.t132)
  }

  lemma ColumnsAreScaled(s: GeometryTerms, accelVar: Vec, gyroVar: real, dt: real)
    ensures ScaledColumns(WithVariances(s, accelVar, gyroVar, dt), dt)
  {
    var c := WithVariances(s, accelVar, gyroVar, dt);
    NegatedProduct(c.t80, c.t79, dt);
    NegatedProduct(c.t59, c.t58, dt);
    NegatedProduct(c.t55, c.t54, dt);
    NegatedProduct(c.t102, c.t101, dt);
    NegatedProduct(c.t113, c.t112, dt);
    NegatedProduct(c.t107, c.t106, dt);
    NegatedProduct(c.t128, c.t71, dt);
    NegatedProduct(c.t130, c.t72, dt);
    NegatedProduct(c.t133, c.t132, dt);
  }

  lemma BiasBlock(c: Terms, state: Vec, accel: Vec, dt: real)
    requires BiasGeometry(c, state) && ScaledColumns(c, dt)
    ensures BiasEntries(c, StateA(state, accel, dt))
  {
    var q := VStateToState(state).quat;
    assert Rotation(q, 0, 0) == c.t79 && Rotation(q, 1, 1) == c.t112 && Rotation(q, 2, 2) == c.t132;
  }

  /** The temporaries are the entries of the state Jacobian of the error dynamics. */
  lemma TermsAreEntries(state: Vec, accel: Vec, accelVar: Vec, gyroVar: real, dt: real)
    ensures StateEntries(StateTerms(state, accel, accelVar, gyroVar, dt), StateA(state, accel, dt), dt)
  {
    var s := StateGeometry(state, accel, dt);
    assert AttitudeEntries(WithVariances(s, accelVar, gyroVar, dt), StateA(state, accel, dt)) by {
      NormTerm(state, accel, dt);
      AttitudeTerms0(state, accel, dt, s);
      AttitudeTerms1(state, accel, dt, s);
      AttitudeTerms2(state, accel, dt, s);
      AttitudeBlock(s, state, accel, accelVar, gyroVar, dt);
    }
    assert TurnedEntries(WithVariances(s, accelVar, gyroVar, dt), StateA(state, accel, dt)) by {
      TurnedTermX(state, accel, dt, s);
      TurnedTermY(state, accel, dt, s);
      TurnedTermZ(state, accel, dt, s);
      TurnedBlock(s, state, accel, accelVar, gyroVar, dt);
    }
    assert BiasEntries(WithVariances(s, accelVar, gyroVar, dt), StateA(state, accel, dt)) by {
      BiasTerms(state, accel, accelVar, gyroVar, dt);
      ColumnsAreScaled(s, accelVar, gyroVar, dt);
      BiasBlock(WithVariances(s, accelVar, gyroVar, dt), state, accel, dt);
    }
  }

  // The product `A P A'`.

  lemma RowDotEqual(c: Terms, dt: real, i: int, f: Vec, g: Vec)
    requires forall k :: f(k) == g(k)
    ensures RowDot(c, dt, i, f) == RowDot(c, dt, i, g)
  {
  }

  lemma ProductEntry(c: Terms, a: Mat, dt: real, P: Mat, i: int, l: int)
    requires StateEntries(c, a, dt) && 0 <= i < 15 && SparsePattern(a, i)
    ensures Mul(15, a, P)(i, l) == ProductRow(c, dt, P, i)(l)
  {
    SparseSum(a, i, Column(P, l), k => a(i, k) * P(k, l));
    SparseIsRowDot(c, a, dt, i, Column(P, l));
    ProductIsRowDot(c, dt, P, i, l);
  }

  lemma CongruenceIsRowDot(c: Terms, a: Mat, dt: real, P: Mat, i: int, j: int)
    requires StateEntries(c, a, dt) && 0 <= i < 15 && 0 <= j < 15 && SparsePattern(a, i) && SparsePattern(a, j)
    ensures Congruence(15, a, P)(i, j) == RowDot(c, dt, j, ProductRow(c, dt, P, i))
  {
    var f := Row(Mul(15, a, P), i);
    CongruenceRow(15, a, P, i, j);
    SparseApply(a, j, f);
    SparseIsRowDot(c, a, dt, j, f);
    forall l: int ensures f(l) == ProductRow(c, dt, P, i)(l) {
      ProductEntry(c, a, dt, P, i, l);
    }
    RowDotEqual(c, dt, j, f, ProductRow(c, dt, P, i));
  }

  // The product `G Q G'`.

  ghost function Variances(accelVar: Vec, gyroVar: real): Vec {
    k => if k < 3 then accelVar(k) else gyroVar
  }

  lemma NoiseDot3(a: real, b: real, c: real, p: real, q: real, r: real, x: real, y: real, z: real)
    ensures Dot3(x, y, z, a * p, b * q, c * r) == Noise3(a, b, c, p, q, r, x, y, z)
  {
    assert x * (a * p) + y * (b * q) + z * (c * r) == a * p * x + b * q * y + c * r * z;
  }

  /** Entry (i, j) of `g * diag(q) * g'` from the entries of two rows. */
  ghost function NoiseEntry(g: Mat, q: Vec, i: int, j: int): real {
    if i < 3 && j < 3 then Noise3(g(i, 3), g(i, 4), g(i, 5), q(3), q(4), q(5), g(j, 3), g(j, 4), g(j, 5))
    else if 3 <= i < 6 && 3 <= j < 6 then Noise3(g(i, 0), g(i, 1), g(i, 2), q(0), q(1), q(2), g(j, 0), g(j, 1), g(j, 2))
    else 0.0
  }

  lemma ZeroDot3(a: real, b: real, c: real, p: real, q: real, r: real)
    requires a == 0.0 && b == 0.0 && c == 0.0
    ensures Dot3(p, q, r, a, b, c) == 0.0
  {
  }

  lemma NoiseProduct(g: Mat, q: Vec, i: int, j: int)
    requires NoisePattern(g, i) && NoisePattern(g, j)
    ensures Congruence(6, g, Diagonal(q))(i, j) == NoiseEntry(g, q, i, j)
  {
    var f := Row(Mul(6, g, Diagonal(q)), i);
    CongruenceRow(6, g, Diagonal(q), i, j);
    NoiseApply(g, j, f);
    forall l: int | 0 <= l < 6
      ensures f(l) == g(i, l) * q(l)
      ensures g(i, l) == 0.0 ==> f(l) == 0.0
    {
      MulDiagonal(6, g, q, i, l);
      assert 0.0 * q(l) == 0.0;
    }
    NoiseRow(g, q, i, j, f);
  }

  lemma NoiseRow(g: Mat, q: Vec, i: int, j: int, f: Vec)
    requires NoisePattern(g, i)
    requires forall l :: 0 <= l < 6 ==> f(l) == g(i, l) * q(l) && (g(i, l) == 0.0 ==> f(l) == 0.0)
    ensures SparseNoise(g, j, f) == NoiseEntry(g, q, i, j)
  {
    if j < 3 {
      NoiseDot3(g(i, 3), g(i, 4), g(i, 5), q(3), q(4), q(5), g(j, 3), g(j, 4), g(j, 5));
      if i >= 3 { ZeroDot3(f(3), f(4), f(5), g(j, 3), g(j, 4), g(j, 5)); }
    } else if j < 6 {
      NoiseDot3(g(i, 0), g(i, 1), g(i, 2), q(0), q(1), q(2), g(j, 0), g(j, 1), g(j, 2));
      if i < 3 || i >= 6 { ZeroDot3(f(0), f(1), f(2), g(j, 0), g(j, 1), g(j, 2)); }
    }
  }

  lemma ScaledNoise(dt: real, x: real, y: real, v: real, p: real)
    requires v == Sq(dt) * p
    ensures x * v * y == Times(-dt, x) * p * Times(-dt, y)
  {
    calc {
      x * v * y;
      x * (dt * dt * p) * y;
      -dt * x * p * (-dt * y);
      Times(-dt, x) * p * Times(-dt, y);
    }
  }

  lemma ScaledNoise3(dt: real, a: real, b: real, c: real, u: real, v: real, w: real, p: real, q: real, r: real,
                     x: real, y: real, z: real)
    requires u == Sq(dt) * p && v == Sq(dt) * q && w == Sq(dt) * r
    ensures Noise3(a, b, c, u, v, w, x, y, z)
         == Noise3(Times(-dt, a), Times(-dt, b), Times(-dt, c), p, q, r, Times(-dt, x), Times(-dt, y), Times(-dt, z))
  {
    ScaledNoise(dt, a, x, u, p);
    ScaledNoise(dt, b, y, v, q);
    ScaledNoise(dt, c, z, w, r);
  }

  /** The temporaries that carry the variances. */
  ghost predicate VarianceTerms(c: Terms, accelVar: Vec, gyroVar: real, dt: real) {
    c.t94 == Sq(dt) * accelVar(0) && c.t92 == Sq(dt) * accelVar(1) && c.t93 == Sq(dt) * accelVar(2)
  }

  /** Row i of the noise Jacobian in the temporaries. */
  ghost predicate NoiseEntries(c: Terms, g: Mat, dt: real) {
    && g(0, 3) == c.t8 && g(0, 4) == c.t15 && g(0, 5) == c.t20
    && g(1, 3) == c.t29 && g(1, 4) == c.t36 && g(1, 5) == c.t34
    && g(2, 3) == c.t43 && g(2, 4) == c.t44 && g(2, 5) == c.t45
    && g(3, 0) == Times(-dt, c.t79) && g(3, 1) == Times(-dt, c.t58) && g(3, 2) == Times(-dt, c.t54)
    && g(4, 0) == Times(-dt, c.t101) && g(4, 1) == Times(-dt, c.t112) && g(4, 2) == Times(-dt, c.t106)
    && g(5, 0) == Times(-dt, c.t71) && g(5, 1) == Times(-dt, c.t72) && g(5, 2) == Times(-dt, c.t132)
  }

  lemma NoiseTermsAreEntries(state: Vec, accel: Vec, accelVar: Vec, gyroVar: real, dt: real)
    ensures NoiseEntries(StateTerms(state, accel, accelVar, gyroVar, dt), NoiseG(state, dt), dt)
  {
    var q, g := VStateToState(state).quat, NoiseG(state, dt);
    TermsAreEntries(state, accel, accelVar, gyroVar, dt);
    BiasTerms(state, accel, accelVar, gyroVar, dt);
    NoiseColumns(StateTerms(state, accel, accelVar, gyroVar, dt), state, accel, dt);
  }

  lemma NoiseColumns(c: Terms, state: Vec, accel: Vec, dt: real)
    requires AttitudeEntries(c, StateA(state, accel, dt)) && BiasGeometry(c, state)
    ensures NoiseEntries(c, NoiseG(state, dt), dt)
  {
    var q := VStateToState(state).quat;
    assert Rotation(q, 0, 0) == c.t79 && Rotation(q, 0, 1) == c.t58 && Rotation(q, 0, 2) == c.t54;
    assert Rotation(q, 1, 0) == c.t101 && Rotation(q, 1, 1) == c.t112 && Rotation(q, 1, 2) == c.t106;
    assert Rotation(q, 2, 0) == c.t71 && Rotation(q, 2, 1) == c.t72 && Rotation(q, 2, 2) == c.t132;
  }

  lemma NoiseMatches(c: Terms, g: Mat, accelVar: Vec, gyroVar: real, dt: real, i: int, j: int)
    requires NoiseEntries(c, g, dt) && VarianceTerms(c, accelVar, gyroVar, dt) && 0 <= i <= j < 15
    ensures NoiseDot(c, gyroVar, i, j) == NoiseEntry(g, Variances(accelVar, gyroVar), i, j)
  {
    if 3 <= i && j < 6 {
      ScaledNoise3(dt, c.t79, c.t58, c.t54, c.t94, c.t92, c.t93, accelVar(0), accelVar(1), accelVar(2), c.t79, c.t58,
                   c.t54);
      ScaledNoise3(dt, c.t79, c.t58, c.t54, c.t94, c.t92, c.t93, accelVar(0), accelVar(1), accelVar(2), c.t101, c.t112,
                   c.t106);
      ScaledNoise3(dt, c.t79, c.t58, c.t54, c.t94, c.t92, c.t93, accelVar(0), accelVar(1), accelVar(2), c.t71, c.t72,
                   c.t132);
      ScaledNoise3(dt, c.t101, c.t112, c.t106, c.t94, c.t92, c.t93, accelVar(0), accelVar(1), accelVar(2), c.t101,
                   c.t112, c.t106);
      ScaledNoise3(dt, c.t101, c.t112, c.t106, c.t94, c.t92, c.t93, accelVar(0), accelVar(1), accelVar(2), c.t71,
                   c.t72, c.t132);
      ScaledNoise3(dt, c.t71, c.t72, c.t132, c.t94, c.t92, c.t93, accelVar(0), accelVar(1), accelVar(2), c.t71, c.t72,
                   c.t132);
    }
  }

  lemma VariancesHold(s: GeometryTerms, accelVar: Vec, gyroVar: real, dt: real)
    ensures SharedProducts(WithVariances(s, accelVar, gyroVar, dt), gyroVar)
    ensures VarianceTerms(WithVariances(s, accelVar, gyroVar, dt), accelVar, gyroVar, dt)
  {
  }

  /** `A P A' + G Q G'` */
  ghost function Exact(state: Vec, P: Mat, accel: Vec, accelVar: Vec, gyroVar: real, dt: real): Mat {
    Add(Congruence(15, StateA(state, accel, dt), P),
        Congruence(6, NoiseG(state, dt), Diagonal(Variances(accelVar, gyroVar))))
  }

  /**
   For every input, the generated code writes `A P A' + G Q G'` on and above the diagonal, where
   `A` and `G` are the Jacobians of the error dynamics, and 0 below it.
   */
  lemma PredictionIsExact(state: Vec, P: Mat, accel: Vec, accelVar: Vec, gyro: Vec, gyroVar: real, dt: real, i: int,
                          j: int)
    requires 0 <= i < 15 && 0 <= j < 15
    ensures PredictCovariance(state, P, accel, accelVar, gyro, gyroVar, dt)(i, j)
         == if i <= j then Exact(state, P, accel, accelVar, gyroVar, dt)(i, j) else 0.0
  {
    var c := StateTerms(state, accel, accelVar, gyroVar, dt);
    assert PredictCovariance(state, P, accel, accelVar, gyro, gyroVar, dt)(i, j)
             == PredictedEntry(c, P, gyroVar, dt, i, j);
    if i <= j {
      var a, g, q := StateA(state, accel, dt), NoiseG(state, dt), Variances(accelVar, gyroVar);
      VariancesHold(StateGeometry(state, accel, dt), accelVar, gyroVar, dt);
      EntryMeetsTarget(c, P, gyroVar, dt, i, j);
      JacobianPatterns(VStateToState(state), Vector(accel), dt, i);
      JacobianPatterns(VStateToState(state), Vector(accel), dt, j);
      TermsAreEntries(state, accel, accelVar, gyroVar, dt);
      CongruenceIsRowDot(c, a, dt, P, i, j);
      NoiseTermsAreEntries(state, accel, accelVar, gyroVar, dt);
      NoiseMatches(c, g, accelVar, gyroVar, dt, i, j);
      NoiseProduct(g, q, i, j);
    }
  }

  /** The diagonals of the two matrices of `q` differ by |q|^2 - 1. */
  lemma DiagonalsDiffer(q: Quaternion, i: int)
    requires 0 <= i < 3
    ensures Homogeneous(q, i, i) - Rotation(q, i, i) == NormSquared(q) - 1.0
  {
  }

  lemma ProductsAgree(k: real, a: real, b: real)
    ensures Times(k, a) == Times(k, b) <==> k == 0.0 || a == b
  {
    assert k * a - k * b == k * (a - b);
  }

  lemma DotDiffers(n: real, h: real, r: real, a: real, b: real, x: real, y: real, z: real)
    requires h - r == n
    ensures Dot3(h, a, b, x, y, z) - Dot3(r, a, b, x, y, z) == Times(n, x)
    ensures Dot3(a, h, b, y, x, z) - Dot3(a, r, b, y, x, z) == Times(n, x)
    ensures Dot3(a, b, h, y, z, x) - Dot3(a, b, r, y, z, x) == Times(n, x)
  {
    assert h * x - r * x == (h - r) * x;
  }

  /** The vectors turned by the two matrices of `q` differ by |q|^2 - 1 times the vector. */
  lemma TurnsDiffer(q: Quaternion, v: Vector3, i: int)
    requires 0 <= i < 3
    ensures At3(RotateHomogeneous(q, v), i) - At3(Rotate(q, v), i) == Times(NormSquared(q) - 1.0, At3(v, i))
  {
    var h, r := HomogeneousRow(q, i), RotationRow(q, i);
    DiagonalsDiffer(q, i);
    if i == 0 {
      DotDiffers(NormSquared(q) - 1.0, h.x, r.x, h.y, h.z, v.x, v.y, v.z);
    } else if i == 1 {
      DotDiffers(NormSquared(q) - 1.0, h.y, r.y, h.x, h.z, v.y, v.x, v.z);
    } else {
      DotDiffers(NormSquared(q) - 1.0, h.z, r.z, h.x, h.y, v.z, v.x, v.y);
    }
  }

  /** Off the diagonal, entry (i, j) of a cross-product matrix is the third component up to its sign. */
  lemma SkewsAgree(a: Vector3, b: Vector3, i: int, j: int)
    requires 0 <= i < 3 && 0 <= j < 3
    ensures Skew(a, i, j) == Skew(b, i, j) <==> i == j || At3(a, 3 - i - j) == At3(b, 3 - i - j)
  {
  }

  /**
   For every quaternion the block of the velocity rows of `A` for the accelerometer biases is minus dt
   times the rotation `R`. An entry of their block for the attitude is that of minus dt times `[R a]x`
   exactly when the quaternion is a unit one, the time step is 0, or the component of the corrected
   acceleration that the entry holds is 0.
   */
  lemma VelocityBlocks(state: Vec, accel: Vec, dt: real, i: int, j: int)
    requires 0 <= i < 3 && 0 <= j < 3
    ensures var s, a := VStateToState(state), StateA(state, accel, dt);
            var v := Sub3(Vector(accel), s.accelBias);
            && a(3 + i, 12 + j) == Times(-dt, Rotation(s.quat, i, j))
            && (a(3 + i, j) == Times(-dt, Skew(Rotate(s.quat, v), i, j))
                <==> dt == 0.0 || NormSquared(s.quat) == 1.0 || i == j || At3(v, 3 - i - j) == 0.0)
  {
    var s := VStateToState(state);
    var v := Sub3(Vector(accel), s.accelBias);
    var h, r := RotateHomogeneous(s.quat, v), Rotate(s.quat, v);
    assert StateA(state, accel, dt)(3 + i, j) == Times(-dt, Skew(TurnedAccel(state, accel), i, j));
    assert StateA(state, accel, dt)(3 + i, 12 + j) == Times(-dt, Rotation(s.quat, i, j));
    ProductsAgree(-dt, Skew(h, i, j), Skew(r, i, j));
    SkewsAgree(h, r, i, j);
    if i != j {
      TurnsDiffer(s.quat, v, 3 - i - j);
      ProductsAgree(NormSquared(s.quat) - 1.0, At3(v, 3 - i - j), 0.0);
    }
  }

  /** The attitude block of the velocity rows of `A` is minus dt times `[R a]x`, at entry (i, j). */
  ghost predicate TurnsUnitAccel(state: Vec, accel: Vec, dt: real, i: int, j: int) {
    var s := VStateToState(state);
    StateA(state, accel, dt)(3 + i, j) == Times(-dt, Skew(Rotate(s.quat, Sub3(Vector(accel), s.accelBias)), i, j))
  }

  /**
   It is so at every entry exactly when the quaternion is a unit one, the time step is 0, or the
   accelerometer reads its bias.
   */
  lemma VelocityBlockAgrees(state: Vec, accel: Vec, dt: real)
    ensures (forall i, j :: 0 <= i < 3 && 0 <= j < 3 ==> TurnsUnitAccel(state, accel, dt, i, j))
       <==> dt == 0.0 || NormSquared(VStateToState(state).quat) == 1.0
            || Vector(accel) == VStateToState(state).accelBias
  {
    forall i, j | 0 <= i < 3 && 0 <= j < 3
      ensures TurnsUnitAccel(state, accel, dt, i, j)
         <==> dt == 0.0 || NormSquared(VStateToState(state).quat) == 1.0 || i == j
              || At3(Sub3(Vector(accel), VStateToState(state).accelBias), 3 - i - j) == 0.0
    {
      VelocityBlocks(state, accel, dt, i, j);
    }
    if forall i, j :: 0 <= i < 3 && 0 <= j < 3 ==> TurnsUnitAccel(state, accel, dt, i, j) {
      assert TurnsUnitAccel(state, accel, dt, 1, 2);
      assert TurnsUnitAccel(state, accel, dt, 0, 2);
      assert TurnsUnitAccel(state, accel, dt, 0, 1);
    }
  }

  /** Where it fails: the quaternion of length two, a step of one, a corrected acceleration along z. */
  lemma VelocityBlocksFail(state: Vec, accel: Vec)
    requires VStateToState(state).quat == Quaternion(2.0, 0.0, 0.0, 0.0)
    requires Sub3(Vector(accel), VStateToState(state).accelBias) == Vector3(0.0, 0.0, 1.0)
    ensures StateA(state, accel, 1.0)(3, 1) == 4.0
    ensures Times(-1.0, Skew(Rotate(VStateToState(state).quat, Vector3(0.0, 0.0, 1.0)), 0, 1)) == 1.0
  {
    var q := VStateToState(state).quat;
    assert StateA(state, accel, 1.0)(3, 1) == Times(-1.0, Skew(TurnedAccel(state, accel), 0, 1));
    assert HomogeneousRow(q, 2) == Vector3(0.0, 0.0, 4.0) && RotationRow(q, 2) == Vector3(0.0, 0.0, 1.0);
  }

  /** For a unit quaternion the velocity rows of `A` hold `[R a]x` and `R` for one and the same `R`. */
  lemma UnitVelocityBlocks(state: Vec, accel: Vec, dt: real, i: int, j: int)
    requires NormSquared(VStateToState(state).quat) == 1.0
    requires 0 <= i < 3 && 0 <= j < 3
    ensures var s := VStateToState(state);
            var a := StateA(state, accel, dt);
            && a(3 + i, j) == Times(-dt, Skew(Rotate(s.quat, Sub3(Vector(accel), s.accelBias)), i, j))
            && a(3 + i, 12 + j) == Times(-dt, Rotation(s.quat, i, j))
  {
    VelocityBlocks(state, accel, dt, i, j);
  }

  /**
   The code keeps |q|^2 where the derivation means to replace it by 1. The attitude block of `A` is
   the identity exactly for unit quaternions. Off its diagonal the block for the gyro biases is
   minus dt times the rotation that turns the acceleration, for every quaternion; on its diagonal
   exactly when the quaternion is a unit one or the time step is 0.
   */
  lemma AttitudeBlocks(state: Vec, accel: Vec, dt: real, i: int, j: int)
    requires 0 <= i < 3 && 0 <= j < 3
    ensures var q, a := VStateToState(state).quat, StateA(state, accel, dt);
            && (a(i, i) == 1.0 <==> NormSquared(q) == 1.0)
            && (i != j ==> a(i, j) == 0.0 && a(i, 9 + j) == Times(-dt, Rotation(q, i, j)))
            && (a(i, 9 + i) == Times(-dt, Rotation(q, i, i)) <==> dt == 0.0 || NormSquared(q) == 1.0)
  {
    var q := VStateToState(state).quat;
    assert StateA(state, accel, dt)(i, 9 + i) == Times(-dt, Homogeneous(q, i, i));
    DiagonalsDiffer(q, i);
    ProductsAgree(-dt, Homogeneous(q, i, i), Rotation(q, i, i));
    if i != j {
      assert StateA(state, accel, dt)(i, 9 + j) == Times(-dt, Homogeneous(q, i, j));
    }
  }

  /** Where both fail: a quaternion of length two and a step of one. */
  lemma AttitudeBlocksFail(state: Vec, accel: Vec)
    requires VStateToState(state).quat == Quaternion(2.0, 0.0, 0.0, 0.0)
    ensures var q, a := VStateToState(state).quat, StateA(state, accel, 1.0);
            && a(0, 0) == 4.0
            && a(0, 9) == -4.0 && Times(-1.0, Rotation(q, 0, 0)) == -1.0
  {
    var q := VStateToState(state).quat;
    assert StateA(state, accel, 1.0)(0, 9) == Times(-1.0, Homogeneous(q, 0, 0));
    assert StateA(state, accel, 1.0)(0, 0) == NormSquared(q);
  }

  lemma ScaledRows(dt: real, g: real, a: real, b: real, c: real, x: real, y: real, z: real)
    ensures Noise3(Times(-dt, a), Times(-dt, b), Times(-dt, c), g, g, g, Times(-dt, x), Times(-dt, y), Times(-dt, z))
         == Times(dt * dt * g, Dot3(a, b, c, x, y, z))
  {
    calc {
      Noise3(-dt * a, -dt * b, -dt * c, g, g, g, -dt * x, -dt * y, -dt * z);
      -dt * a * g * (-dt * x) + -dt * b * g * (-dt * y) + -dt * c * g * (-dt * z);
      dt * dt * g * (a * x + b * y + c * z);
      Times(dt * dt * g, a * x + b * y + c * z);
    }
  }

  lemma UpperGyroContribution(state: Vec, accelVar: Vec, gyroVar: real, dt: real, i: int, j: int)
    requires 0 <= i <= j < 3
    ensures var n := NormSquared(VStateToState(state).quat);
            Congruence(6, NoiseG(state, dt), Diagonal(Variances(accelVar, gyroVar)))(i, j)
              == if i == j then Times(dt * dt * gyroVar, Times(n, n)) else 0.0
  {
    var s, g := VStateToState(state), NoiseG(state, dt);
    var a, b := HomogeneousRow(s.quat, i), HomogeneousRow(s.quat, j);
    JacobianPatterns(s, ZERO3, dt, i);
    JacobianPatterns(s, ZERO3, dt, j);
    NoiseProduct(g, Variances(accelVar, gyroVar), i, j);
    assert g(i, 3) == Times(-dt, a.x) && g(i, 4) == Times(-dt, a.y) && g(i, 5) == Times(-dt, a.z);
    assert g(j, 3) == Times(-dt, b.x) && g(j, 4) == Times(-dt, b.y) && g(j, 5) == Times(-dt, b.z);
    ScaledRows(dt, gyroVar, a.x, a.y, a.z, b.x, b.y, b.z);
    HomogeneousRowsOrthogonal(s.quat, i, j);
  }

  /** The gyro noise adds `dt*dt*gyroVar*|q|^4` times the identity to the attitude block. */
  lemma GyroContribution(state: Vec, accelVar: Vec, gyroVar: real, dt: real, i: int, j: int)
    requires 0 <= i < 3 && 0 <= j < 3
    ensures var n := NormSquared(VStateToState(state).quat);
            Congruence(6, NoiseG(state, dt), Diagonal(Variances(accelVar, gyroVar)))(i, j)
              == if i == j then Times(dt * dt * gyroVar, Times(n, n)) else 0.0
  {
    if i <= j {
      UpperGyroContribution(state, accelVar, gyroVar, dt, i, j);
    } else {
      UpperGyroContribution(state, accelVar, gyroVar, dt, j, i);
      DiagonalSymmetric(6, Variances(accelVar, gyroVar));
      CongruenceSymmetric(3, 6, NoiseG(state, dt), Diagonal(Variances(accelVar, gyroVar)));
    }
  }

  lemma UnitScale(k: real)
    ensures Times(k, Times(1.0, 1.0)) == k
  {
  }

  /** For a unit quaternion that is `dt*dt*gyroVar` times the identity. */
  lemma UnitGyroContribution(state: Vec, accelVar: Vec, gyroVar: real, dt: real, i: int, j: int)
    requires NormSquared(VStateToState(state).quat) == 1.0
    requires 0 <= i < 3 && 0 <= j < 3
    ensures Congruence(6, NoiseG(state, dt), Diagonal(Variances(accelVar, gyroVar)))(i, j)
         == if i == j then dt * dt * gyroVar else 0.0
  {
    GyroContribution(state, accelVar, gyroVar, dt, i, j);
    UnitScale(dt * dt * gyroVar);
  }

  /** The upper triangle of a matrix, with zeros below. */
  ghost function UpperTriangle(m: Mat): Mat {
    (i, j) => if i > j then 0.0 else m(i, j)
  }

  /** The generated result is what the derivation script writes: the exact product with the lower triangle zeroed. */
  lemma PredictionIsTriangle(state: Vec, P: Mat, accel: Vec, accelVar: Vec, gyro: Vec, gyroVar: real, dt: real)
    ensures SameEntries(15, 15, PredictCovariance(state, P, accel, accelVar, gyro, gyroVar, dt),
                        UpperTriangle(Exact(state, P, accel, accelVar, gyroVar, dt)))
  {
    var m := PredictCovariance(state, P, accel, accelVar, gyro, gyroVar, dt);
    var e := Exact(state, P, accel, accelVar, gyroVar, dt);
    forall i, j | 0 <= i < 15 && 0 <= j < 15
      ensures m(i, j) == UpperTriangle(e)(i, j)
    {
      PredictionIsExact(state, P, accel, accelVar, gyro, gyroVar, dt, i, j);
    }
  }

  // Runs.

  datatype PredictionStep = PredictionStep(state: Vec, accel: Vec, accelVar: Vec, gyro: Vec, gyroVar: real, dt: real)

  /** The full matrix whose upper triangle is that of `m`. */
  function Mirror(m: Mat): Mat {
    (i, j) => if i <= j then m(i, j) else m(j, i)
  }

  function Predict(P: Mat, s: PredictionStep): Mat {
    Mirror(PredictCovariance(s.state, P, s.accel, s.accelVar, s.gyro, s.gyroVar, s.dt))
  }

  function Run(P: Mat, steps: seq<PredictionStep>): Mat {
    if steps == [] then P else Run(Predict(P, steps[0]), steps[1..])
  }

  /** A run is its steps one after the other. */
  lemma {:induction false} RunSplits(P: Mat, a: seq<PredictionStep>, s: PredictionStep)
    ensures Run(P, a + [s]) == Predict(Run(P, a), s)
  {
    if a == [] {
      assert a + [s] == [s];
      assert [s][1..] == [];
    } else {
      assert (a + [s])[1..] == a[1..] + [s];
      RunSplits(Predict(P, a[0]), a[1..], s);
    }
  }

  ghost predicate ValidStep(s: PredictionStep) {
    s.gyroVar >= 0.0 && s.accelVar(0) >= 0.0 && s.accelVar(1) >= 0.0 && s.accelVar(2) >= 0.0
  }

  ghost predicate IsCovariance(P: Mat) {
    Symmetric(15, P) && PositiveSemidefinite(15, P)
  }

  ghost function ExactStep(P: Mat, s: PredictionStep): Mat {
    Exact(s.state, P, s.accel, s.accelVar, s.gyroVar, s.dt)
  }

  lemma ExactSymmetric(P: Mat, s: PredictionStep)
    requires Symmetric(15, P)
    ensures Symmetric(15, ExactStep(P, s))
  {
    var q := Variances(s.accelVar, s.gyroVar);
    DiagonalSymmetric(6, q);
    CongruenceSumSymmetric(15, 15, StateA(s.state, s.accel, s.dt), P, 6, NoiseG(s.state, s.dt), Diagonal(q));
  }

  lemma ExactPositive(P: Mat, s: PredictionStep)
    requires PositiveSemidefinite(15, P) && ValidStep(s)
    ensures PositiveSemidefinite(15, ExactStep(P, s))
  {
    var q := Variances(s.accelVar, s.gyroVar);
    DiagonalPositive(6, q);
    CongruenceSumPositive(15, 15, StateA(s.state, s.accel, s.dt), P, 6, NoiseG(s.state, s.dt), Diagonal(q));
  }

  lemma MirrorOfTriangle(n: nat, m: Mat, e: Mat)
    requires Symmetric(n, e) && forall i, j :: 0 <= i <= j < n ==> m(i, j) == e(i, j)
    ensures SameEntries(n, n, Mirror(m), e)
  {
  }

  /** On a symmetric covariance the mirrored result is the exact product in every entry. */
  lemma MirroredIsExact(P: Mat, s: PredictionStep)
    requires Symmetric(15, P)
    ensures SameEntries(15, 15, Predict(P, s), ExactStep(P, s))
  {
    var m := PredictCovariance(s.state, P, s.accel, s.accelVar, s.gyro, s.gyroVar, s.dt);
    forall i, j | 0 <= i <= j < 15 ensures m(i, j) == ExactStep(P, s)(i, j) {
      PredictionIsExact(s.state, P, s.accel, s.accelVar, s.gyro, s.gyroVar, s.dt, i, j);
    }
    ExactSymmetric(P, s);
    MirrorOfTriangle(15, m, ExactStep(P, s));
  }

  lemma MirrorSymmetric(n: nat, m: Mat)
    ensures Symmetric(n, Mirror(m))
  {
  }

  lemma SameEntriesPositive(n: nat, p: Mat, q: Mat)
    requires SameEntries(n, n, p, q) && PositiveSemidefinite(n, q)
    ensures PositiveSemidefinite(n, p)
  {
    forall x: Vec ensures Quad(n, p, x) >= 0.0 {
      QuadEqual(n, p, q, x);
    }
  }

  lemma PredictKeepsCovariance(P: Mat, s: PredictionStep)
    requires IsCovariance(P) && ValidStep(s)
    ensures IsCovariance(Predict(P, s))
  {
    MirroredIsExact(P, s);
    ExactPositive(P, s);
    SameEntriesPositive(15, Predict(P, s), ExactStep(P, s));
    MirrorSymmetric(15, PredictCovariance(s.state, P, s.accel, s.accelVar, s.gyro, s.gyroVar, s.dt));
  }

  /** Gyro and accelerometer biases occupy rows and columns 9 to 14. */
  ghost predicate SameBiasBlock(P: Mat, Q: Mat) {
    forall i, j :: 9 <= i < 15 && 9 <= j < 15 ==> P(i, j) == Q(i, j)
  }

  lemma PredictKeepsBiasBlock(P: Mat, s: PredictionStep)
    requires Symmetric(15, P)
    ensures SameBiasBlock(P, Predict(P, s))
  {
    var c := StateTerms(s.state, s.accel, s.accelVar, s.gyroVar, s.dt);
    forall i, j | 9 <= i < 15 && 9 <= j < 15 ensures P(i, j) == Predict(P, s)(i, j) {
      assert Predict(P, s)(i, j)
               == PredictedEntry(c, P, s.gyroVar, s.dt, if i <= j then i else j, if i <= j then j else i);
    }
  }

  /**
   Whatever the states, inputs and time steps, any number of predictions takes a symmetric positive
   semidefinite matrix to one, and leaves the covariance of the biases as it was.
   */
  lemma {:induction false} RunKeepsCovariance(P: Mat, steps: seq<PredictionStep>)
    requires IsCovariance(P)
    requires forall k :: 0 <= k < |steps| ==> ValidStep(steps[k])
    ensures IsCovariance(Run(P, steps))
    ensures SameBiasBlock(P, Run(P, steps))
  {
    if steps != [] {
      PredictKeepsCovariance(P, steps[0]);
      PredictKeepsBiasBlock(P, steps[0]);
      RunKeepsCovariance(Predict(P, steps[0]), steps[1..]);
    }
  }
}
