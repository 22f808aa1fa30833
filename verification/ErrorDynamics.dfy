/**
 The error dynamics behind the covariance prediction: a true state near the nominal one is
 propagated with noisy inputs. The error between the two predictions, without the terms in the
 squared time step of its attitude, is linearised at zero error and zero noise: `StateJacobian` and
 `NoiseJacobian` are that linearisation.
 */
module ErrorDynamics {
  import opened Attitude
  import opened LinearAlgebra
  import opened Reals

  datatype NominalState = NominalState(quat: Quaternion, vel: Vector3, pos: Vector3, gyroBias: Vector3,
                                       accelBias: Vector3)

  datatype StateError = StateError(theta: Vector3, vel: Vector3, pos: Vector3, gyroBias: Vector3, accelBias: Vector3)

  datatype Imu = Imu(accel: Vector3, gyro: Vector3)

  /** The flat 16-vector holds the quaternion scalar first. */
  function VStateToState(v: Vec): NominalState {
    NominalState(
      Quaternion(v(0), v(1), v(2), v(3)),
      Vector3(v(4), v(5), v(6)),
      Vector3(v(7), v(8), v(9)),
      Vector3(v(10), v(11), v(12)),
      Vector3(v(13), v(14), v(15)))
  }

  /** The true state: the attitude error multiplies on the left, the others add. */
  function TrueState(s: NominalState, e: StateError): NominalState {
    NominalState(
      QMul(SmallRotation(e.theta), s.quat),
      Add3(s.vel, e.vel),
      Add3(s.pos, e.pos),
      Add3(s.gyroBias, e.gyroBias),
      Add3(s.accelBias, e.accelBias))
  }

  /** One step of the kinematics with bias-corrected inputs `u` and gravity `g`. */
  function Propagate(s: NominalState, u: Imu, g: real, dt: real): NominalState {
    s.(quat := QMul(s.quat, SmallRotation(Scale3(dt, u.gyro))),
       vel := Add3(s.vel, Scale3(dt, Add3(Rotate(s.quat, u.accel), Vector3(0.0, 0.0, g)))),
       pos := Add3(s.pos, Scale3(dt, s.vel)))
  }

  function NominalInput(s: NominalState, meas: Imu): Imu {
    Imu(Sub3(meas.accel, s.accelBias), Sub3(meas.gyro, s.gyroBias))
  }

  function TrueInput(s: NominalState, e: StateError, meas: Imu, noise: Imu): Imu {
    var t := TrueState(s, e);
    Imu(Sub3(Sub3(meas.accel, t.accelBias), noise.accel), Sub3(Sub3(meas.gyro, t.gyroBias), noise.gyro))
  }

  /**
   What a step does when the specific force is `u.accel`: at rest, where it balances gravity, and in
   free fall, where there is none. Without rotation the attitude stays, and the biases always do.
   */
  lemma PropagateAtRest(s: NominalState, u: Imu, g: real, dt: real)
    requires u.gyro == ZERO3
    ensures var v := Propagate(s, u, g, dt);
            && v.quat == s.quat && v.gyroBias == s.gyroBias && v.accelBias == s.accelBias
            && v.pos == Add3(s.pos, Scale3(dt, s.vel))
            && (Rotate(s.quat, u.accel) == Vector3(0.0, 0.0, -g) ==> v.vel == s.vel)
            && (u.accel == ZERO3 ==> v.vel == Vector3(s.vel.x, s.vel.y, s.vel.z + dt * g))
  {
    assert SmallRotation(Scale3(dt, u.gyro)) == Quaternion(1.0, 0.0, 0.0, 0.0);
    if u.accel == ZERO3 {
      assert Rotate(s.quat, ZERO3) == ZERO3;
    }
  }

  /** Noise of an input acts as the same error of its bias would, where that is not propagated. */
  lemma NoiseActsAsBias(s: NominalState, e: StateError, meas: Imu, noise: Imu)
    ensures TrueInput(s, e, meas, noise)
         == TrueInput(s, e.(gyroBias := Add3(e.gyroBias, noise.gyro), accelBias := Add3(e.accelBias, noise.accel)),
                      meas, Imu(ZERO3, ZERO3))
  {
  }

  /** The error between the true and the nominal prediction. */
  function PredictedError(s: NominalState, e: StateError, meas: Imu, noise: Imu, g: real, dt: real): StateError {
    var truth := Propagate(TrueState(s, e), TrueInput(s, e, meas, noise), g, dt);
    var nominal := Propagate(s, NominalInput(s, meas), g, dt);
    StateError(
      Scale3(2.0, VectorPart(QMul(truth.quat, Conjugate(nominal.quat)))),
      Sub3(truth.vel, nominal.vel),
      Sub3(truth.pos, nominal.pos),
      Sub3(truth.gyroBias, nominal.gyroBias),
      Sub3(truth.accelBias, nominal.accelBias))
  }

  /** What is left of the attitude error once the terms in dt*dt are dropped; `w` is the rate error. */
  function AttitudeErrorFirstOrder(q: Quaternion, theta: Vector3, w: Vector3, dt: real): Vector3 {
    Scale3(2.0, VectorPart(QMul(SmallRotation(theta), Sandwich(q, WithVector(1.0, Scale3(-0.5 * dt, w))))))
  }

  /** The coefficient of dt*dt; `gyro` is the nominal rate. */
  function AttitudeErrorSecondOrder(q: Quaternion, theta: Vector3, w: Vector3, gyro: Vector3): Vector3 {
    var r := WithVector(Times(0.25, Inner(Sub3(gyro, w), gyro)), Scale3(0.25, Cross(w, gyro)));
    Scale3(2.0, VectorPart(QMul(SmallRotation(theta), Sandwich(q, r))))
  }

  function RateError(e: StateError, noise: Imu): Vector3 {
    Add3(e.gyroBias, noise.gyro)
  }

  /** The predicted error without the terms in dt*dt of the attitude, as the derivation linearises it. */
  function TruncatedError(s: NominalState, e: StateError, meas: Imu, noise: Imu, g: real, dt: real): StateError {
    PredictedError(s, e, meas, noise, g, dt).(
      theta := AttitudeErrorFirstOrder(s.quat, e.theta, RateError(e, noise), dt))
  }

  // The attitude error is its first-order part plus dt*dt times the rest.

  // `t` is the true rate and `n` the nominal one, component by component.

  lemma TurnProductX(dt: real, a: real, b: real, c: real, x: real, y: real, z: real)
    ensures MulX(1.0, Times(0.5, Times(dt, a)), Times(0.5, Times(dt, b)), Times(0.5, Times(dt, c)),
                 1.0, Negated(Times(0.5, Times(dt, x))), Negated(Times(0.5, Times(dt, y))),
                 Negated(Times(0.5, Times(dt, z))))
         == Plus(Times(-0.5 * dt, Minus(x, a)), dt * dt, Times(0.25, Minor(Minus(y, b), Minus(z, c), y, z)))
  {
    calc {
      MulX(1.0, 0.5 * (dt * a), 0.5 * (dt * b), 0.5 * (dt * c), 1.0, -(0.5 * (dt * x)), -(0.5 * (dt * y)),
           -(0.5 * (dt * z)));
      -(0.5 * (dt * x)) + 0.5 * (dt * a) + 0.5 * (dt * b) * -(0.5 * (dt * z)) - 0.5 * (dt * c) * -(0.5 * (dt * y));
      -0.5 * dt * (x - a) + dt * dt * (0.25 * ((y - b) * z - (z - c) * y));
      Plus(-0.5 * dt * (x - a), dt * dt, 0.25 * ((y - b) * z - (z - c) * y));
    }
  }

  lemma TurnProductW(dt: real, a: real, b: real, c: real, x: real, y: real, z: real)
    ensures MulW(1.0, Times(0.5, Times(dt, a)), Times(0.5, Times(dt, b)), Times(0.5, Times(dt, c)),
                 1.0, Negated(Times(0.5, Times(dt, x))), Negated(Times(0.5, Times(dt, y))),
                 Negated(Times(0.5, Times(dt, z))))
         == Plus(1.0, dt * dt, Times(0.25, Dot3(a, b, c, x, y, z)))
  {
    calc {
      MulW(1.0, 0.5 * (dt * a), 0.5 * (dt * b), 0.5 * (dt * c), 1.0, -(0.5 * (dt * x)), -(0.5 * (dt * y)),
           -(0.5 * (dt * z)));
      1.0 - 0.5 * (dt * a) * -(0.5 * (dt * x)) - 0.5 * (dt * b) * -(0.5 * (dt * y))
      - 0.5 * (dt * c) * -(0.5 * (dt * z));
      1.0 + dt * dt * (0.25 * (a * x + b * y + c * z));
      Plus(1.0, dt * dt, 0.25 * (a * x + b * y + c * z));
    }
  }

  /** The increment at rate `t` times the inverse of the one at rate `n`. */
  lemma TurnProduct(dt: real, t: Vector3, n: Vector3)
    ensures QMul(SmallRotation(Scale3(dt, t)), Conjugate(SmallRotation(Scale3(dt, n))))
         == QPlus(WithVector(1.0, Scale3(-0.5 * dt, Sub3(n, t))), dt * dt,
                  WithVector(Times(0.25, Inner(t, n)), Scale3(0.25, Cross(Sub3(n, t), n))))
  {
    TurnProductW(dt, t.x, t.y, t.z, n.x, n.y, n.z);
    TurnProductX(dt, t.x, t.y, t.z, n.x, n.y, n.z);
    TurnProductX(dt, t.y, t.z, t.x, n.y, n.z, n.x);
    TurnProductX(dt, t.z, t.x, t.y, n.z, n.x, n.y);
  }

  /** The attitude error only sees the quotient of the two increments, carried into the world frame. */
  lemma AttitudeQuotient(small: Quaternion, q: Quaternion, d: Quaternion, n: Quaternion)
    ensures QMul(QMul(QMul(small, q), d), Conjugate(QMul(q, n)))
         == QMul(small, Sandwich(q, QMul(d, Conjugate(n))))
  {
    var nc, qc := Conjugate(n), Conjugate(q);
    ConjugateMul(q, n);
    calc {
      QMul(QMul(QMul(small, q), d), QMul(nc, qc));
      { QMulAssociative(QMul(QMul(small, q), d), nc, qc); }
      QMul(QMul(QMul(QMul(small, q), d), nc), qc);
      { QMulAssociative(QMul(small, q), d, nc); }
      QMul(QMul(QMul(small, q), QMul(d, nc)), qc);
      { QMulAssociative(small, q, QMul(d, nc)); }
      QMul(QMul(small, QMul(q, QMul(d, nc))), qc);
      { QMulAssociative(small, QMul(q, QMul(d, nc)), qc); }
      QMul(small, Sandwich(q, QMul(d, nc)));
    }
  }

  lemma ScaledPart(a: real, s: real, b: real)
    ensures 2.0 * Plus(a, s, b) == Plus(2.0 * a, s, 2.0 * b)
  {
  }

  /** Dropping the dt*dt terms of the attitude error is exact up to dt*dt times a part free of dt. */
  lemma AttitudeErrorSplits(s: NominalState, e: StateError, meas: Imu, noise: Imu, g: real, dt: real)
    ensures PredictedError(s, e, meas, noise, g, dt).theta
         == Plus3(AttitudeErrorFirstOrder(s.quat, e.theta, RateError(e, noise), dt), dt * dt,
                  AttitudeErrorSecondOrder(s.quat, e.theta, RateError(e, noise), NominalInput(s, meas).gyro))
  {
    var gyro, w := NominalInput(s, meas).gyro, RateError(e, noise);
    var q, small := s.quat, SmallRotation(e.theta);
    var t := TrueInput(s, e, meas, noise).gyro;
    assert t == Sub3(gyro, w) && w == Sub3(gyro, t);
    AttitudeQuotient(small, q, SmallRotation(Scale3(dt, t)), SmallRotation(Scale3(dt, gyro)));
    TurnProduct(dt, t, gyro);
    var first := WithVector(1.0, Scale3(-0.5 * dt, w));
    var rest := WithVector(Times(0.25, Inner(t, gyro)), Scale3(0.25, Cross(w, gyro)));
    SandwichLinear(q, first, dt * dt, rest);
    QMulRightLinear(small, Sandwich(q, first), dt * dt, Sandwich(q, rest));
    var a, b := QMul(small, Sandwich(q, first)), QMul(small, Sandwich(q, rest));
    ScaledPart(a.x, dt * dt, b.x);
    ScaledPart(a.y, dt * dt, b.y);
    ScaledPart(a.z, dt * dt, b.z);
  }

  // The linearisation.

  /** Row and column order: attitude, velocity, position, gyro bias, accelerometer bias. */
  function StateJacobian(s: NominalState, accel: Vector3, dt: real): Mat {
    var turned := RotateHomogeneous(s.quat, Sub3(accel, s.accelBias));
    (i, j) =>
      if i < 3 then
        if j < 3 then (if i == j then NormSquared(s.quat) else 0.0)
        else if 9 <= j < 12 then Times(-dt, Homogeneous(s.quat, i, j - 9))
        else 0.0
      else if i < 6 then
        if j < 3 then Times(-dt, Skew(turned, i - 3, j))
        else if j >= 12 then Times(-dt, Rotation(s.quat, i - 3, j - 12))
        else if i == j then 1.0 else 0.0
      else if i < 9 then
        if j == i - 3 then dt else if i == j then 1.0 else 0.0
      else
        if i == j then 1.0 else 0.0
  }

  /** Column order: accelerometer noise, gyro noise. */
  function NoiseJacobian(s: NominalState, dt: real): Mat {
    (i, j) =>
      if i < 3 then
        if j < 3 then 0.0 else Times(-dt, Homogeneous(s.quat, i, j - 3))
      else if i < 6 then
        if j < 3 then Times(-dt, Rotation(s.quat, i - 3, j)) else 0.0
      else
        0.0
  }

  ghost function ErrorVector(e: StateError): Vec {
    i =>
      if i == 0 then e.theta.x else if i == 1 then e.theta.y else if i == 2 then e.theta.z
      else if i == 3 then e.vel.x else if i == 4 then e.vel.y else if i == 5 then e.vel.z
      else if i == 6 then e.pos.x else if i == 7 then e.pos.y else if i == 8 then e.pos.z
      else if i == 9 then e.gyroBias.x else if i == 10 then e.gyroBias.y else if i == 11 then e.gyroBias.z
      else if i == 12 then e.accelBias.x else if i == 13 then e.accelBias.y else e.accelBias.z
  }

  ghost function NoiseVector(n: Imu): Vec {
    i =>
      if i == 0 then n.accel.x else if i == 1 then n.accel.y else if i == 2 then n.accel.z
      else if i == 3 then n.gyro.x else if i == 4 then n.gyro.y else n.gyro.z
  }

  lemma Sum6(f: Vec)
    ensures Sum(6, f) == f(0) + f(1) + f(2) + f(3) + f(4) + f(5)
  {
    assert Sum(2, f) == f(0) + f(1);
    assert Sum(4, f) == Sum(2, f) + f(2) + f(3);
  }

  lemma Sum15(f: Vec)
    ensures Sum(15, f) == f(0) + f(1) + f(2) + f(3) + f(4) + f(5) + f(6) + f(7) + f(8)
                        + f(9) + f(10) + f(11) + f(12) + f(13) + f(14)
  {
    Sum6(f);
    assert Sum(8, f) == Sum(6, f) + f(6) + f(7);
    assert Sum(10, f) == Sum(8, f) + f(8) + f(9);
    assert Sum(12, f) == Sum(10, f) + f(10) + f(11);
    assert Sum(14, f) == Sum(12, f) + f(12) + f(13);
  }

  /** The few products that survive in `row i of the Jacobian . f`. */
  ghost function SparseDot(a: Mat, i: int, f: Vec): real {
    if i < 3 then Times(a(i, i), f(i)) + Dot3(a(i, 9), a(i, 10), a(i, 11), f(9), f(10), f(11))
    else if i < 6 then
      Dot3(a(i, 0), a(i, 1), a(i, 2), f(0), f(1), f(2)) + f(i) + Dot3(a(i, 12), a(i, 13), a(i, 14), f(12), f(13), f(14))
    else if i < 9 then Times(a(i, i - 3), f(i - 3)) + f(i)
    else f(i)
  }

  /** A row whose entries outside the sparse pattern are 0 or 1 as in the Jacobian. */
  ghost predicate SparsePattern(a: Mat, i: int) {
    forall k :: 0 <= k < 15 ==>
      if i < 3 then ((k < 9 && k != i) || k >= 12 ==> a(i, k) == 0.0)
      else if i < 6 then (3 <= k < 12 ==> a(i, k) == if i == k then 1.0 else 0.0)
      else if i < 9 then (k != i - 3 ==> a(i, k) == if i == k then 1.0 else 0.0)
      else a(i, k) == if i == k then 1.0 else 0.0
  }

  lemma AttitudeTerms(i: int, g: Vec)
    requires 0 <= i < 3
    requires forall k :: (0 <= k < 9 && k != i) || 12 <= k < 15 ==> g(k) == 0.0
    ensures Sum(15, g) == g(i) + g(9) + g(10) + g(11)
  {
    Sum15(g);
  }

  lemma VelocityTerms(i: int, g: Vec)
    requires 3 <= i < 6
    requires forall k :: 3 <= k < 12 && k != i ==> g(k) == 0.0
    ensures Sum(15, g) == g(0) + g(1) + g(2) + g(i) + g(12) + g(13) + g(14)
  {
    Sum15(g);
  }

  lemma PositionTerms(i: int, g: Vec)
    requires 6 <= i < 9
    requires forall k :: 0 <= k < 15 && k != i && k != i - 3 ==> g(k) == 0.0
    ensures Sum(15, g) == g(i - 3) + g(i)
  {
    Sum15(g);
  }

  lemma ScaledTerm(g: Vec, a: Mat, i: int, f: Vec, k: int)
    requires g(k) == a(i, k) * f(k)
    ensures a(i, k) == 0.0 ==> g(k) == 0.0
    ensures a(i, k) == 1.0 ==> g(k) == f(k)
  {
    assert 0.0 * f(k) == 0.0 && 1.0 * f(k) == f(k);
  }

  lemma SparseSum(a: Mat, i: int, f: Vec, g: Vec)
    requires 0 <= i < 15 && SparsePattern(a, i)
    requires forall k :: g(k) == a(i, k) * f(k)
    ensures Sum(15, g) == SparseDot(a, i, f)
  {
    forall k: int
      ensures a(i, k) == 0.0 ==> g(k) == 0.0
      ensures a(i, k) == 1.0 ==> g(k) == f(k)
    {
      ScaledTerm(g, a, i, f, k);
    }
    if i < 3 {
      AttitudeTerms(i, g);
      assert Dot3(a(i, 9), a(i, 10), a(i, 11), f(9), f(10), f(11)) == g(9) + g(10) + g(11);
    } else if i < 6 {
      VelocityTerms(i, g);
      assert Dot3(a(i, 0), a(i, 1), a(i, 2), f(0), f(1), f(2)) == g(0) + g(1) + g(2);
      assert Dot3(a(i, 12), a(i, 13), a(i, 14), f(12), f(13), f(14)) == g(12) + g(13) + g(14);
    } else if i < 9 {
      PositionTerms(i, g);
    } else {
      SumSingle(15, g, i);
    }
  }

  /** The products of row i of the noise Jacobian. */
  ghost function SparseNoise(a: Mat, i: int, f: Vec): real {
    if i < 3 then Dot3(a(i, 3), a(i, 4), a(i, 5), f(3), f(4), f(5))
    else if i < 6 then Dot3(a(i, 0), a(i, 1), a(i, 2), f(0), f(1), f(2))
    else 0.0
  }

  ghost predicate NoisePattern(a: Mat, i: int) {
    forall k :: 0 <= k < 6 ==> (if i < 3 then k < 3 else if i < 6 then k >= 3 else true) ==> a(i, k) == 0.0
  }

  lemma ThreeProducts(a: real, b: real, c: real, x: real, y: real, z: real, p: real, q: real, r: real)
    requires p == a * x && q == b * y && r == c * z
    ensures Dot3(a, b, c, x, y, z) == p + q + r
  {
  }

  lemma NoiseSum(a: Mat, i: int, f: Vec, g: Vec)
    requires NoisePattern(a, i)
    requires forall k :: g(k) == a(i, k) * f(k)
    ensures Sum(6, g) == SparseNoise(a, i, f)
  {
    Sum6(g);
    forall k: int ensures a(i, k) == 0.0 ==> g(k) == 0.0 {
      ScaledTerm(g, a, i, f, k);
    }
    if i < 3 {
      ThreeProducts(a(i, 3), a(i, 4), a(i, 5), f(3), f(4), f(5), g(3), g(4), g(5));
    } else if i < 6 {
      ThreeProducts(a(i, 0), a(i, 1), a(i, 2), f(0), f(1), f(2), g(0), g(1), g(2));
    }
  }

  /** Row i of the linearisation in closed form. */
  ghost function Slope(s: NominalState, accel: Vector3, dt: real, e: StateError, noise: Imu, i: int): real {
    if i < 3 then
      Times(NormSquared(s.quat), At3(e.theta, i)) - Times(dt, Inner(HomogeneousRow(s.quat, i), RateError(e, noise)))
    else if i < 6 then
      At3(e.vel, i - 3)
      + Times(dt, At3(Cross(e.theta, RotateHomogeneous(s.quat, Sub3(accel, s.accelBias))), i - 3))
      - Times(dt, Inner(RotationRow(s.quat, i - 3), AccelError(e, noise)))
    else if i < 9 then
      At3(e.pos, i - 6) + Times(dt, At3(e.vel, i - 6))
    else if i < 12 then
      At3(e.gyroBias, i - 9)
    else
      At3(e.accelBias, i - 12)
  }

  lemma ScaledDot3(dt: real, a: real, b: real, c: real, x: real, y: real, z: real, k: real, l: real, m: real)
    ensures Dot3(Times(-dt, a), Times(-dt, b), Times(-dt, c), x, y, z)
            + Dot3(Times(-dt, a), Times(-dt, b), Times(-dt, c), k, l, m)
         == -Times(dt, Dot3(a, b, c, Added(x, k), Added(y, l), Added(z, m)))
  {
    calc {
      Dot3(-dt * a, -dt * b, -dt * c, x, y, z) + Dot3(-dt * a, -dt * b, -dt * c, k, l, m);
      -dt * a * x + -dt * b * y + -dt * c * z + (-dt * a * k + -dt * b * l + -dt * c * m);
      -(dt * (a * (x + k) + b * (y + l) + c * (z + m)));
      -Times(dt, Dot3(a, b, c, x + k, y + l, z + m));
    }
  }

  /** Each row of the scaled cross-product matrix, with the zero in each of its three places. */
  lemma ScaledSkewRow(dt: real, y: real, z: real, a: real, b: real, c: real)
    ensures Dot3(Times(-dt, 0.0), Times(-dt, Negated(z)), Times(-dt, y), a, b, c) == Times(dt, Minor(b, c, y, z))
    ensures Dot3(Times(-dt, y), Times(-dt, 0.0), Times(-dt, Negated(z)), c, a, b) == Times(dt, Minor(b, c, y, z))
    ensures Dot3(Times(-dt, Negated(z)), Times(-dt, y), Times(-dt, 0.0), b, c, a) == Times(dt, Minor(b, c, y, z))
  {
    assert Times(-dt, 0.0) == 0.0;
    assert -dt * -z * b + -dt * y * c == dt * (b * z - c * y);
    assert Dot3(0.0, -dt * -z, -dt * y, a, b, c) == -dt * -z * b + -dt * y * c;
    assert Dot3(-dt * y, 0.0, -dt * -z, c, a, b) == -dt * -z * b + -dt * y * c;
    assert Dot3(-dt * -z, -dt * y, 0.0, b, c, a) == -dt * -z * b + -dt * y * c;
  }

  lemma TurnedRow(v: Vector3, t: Vector3, dt: real, i: int)
    requires 0 <= i < 3
    ensures Dot3(Times(-dt, Skew(t, i, 0)), Times(-dt, Skew(t, i, 1)), Times(-dt, Skew(t, i, 2)), v.x, v.y, v.z)
         == Times(dt, At3(Cross(v, t), i))
  {
    if i == 0 {
      ScaledSkewRow(dt, t.y, t.z, v.x, v.y, v.z);
    } else if i == 1 {
      ScaledSkewRow(dt, t.z, t.x, v.y, v.z, v.x);
    } else {
      ScaledSkewRow(dt, t.x, t.y, v.z, v.x, v.y);
    }
  }

  lemma NoisyDot(dt: real, r: Vector3, b: Vector3, n: Vector3)
    ensures Dot3(Times(-dt, r.x), Times(-dt, r.y), Times(-dt, r.z), b.x, b.y, b.z)
          + Dot3(Times(-dt, r.x), Times(-dt, r.y), Times(-dt, r.z), n.x, n.y, n.z)
         == -Times(dt, Inner(r, Add3(b, n)))
  {
    ScaledDot3(dt, r.x, r.y, r.z, b.x, b.y, b.z, n.x, n.y, n.z);
  }

  lemma AttitudeSparse(s: NominalState, accel: Vector3, dt: real, i: int, f: Vec, n: Vec)
    requires 0 <= i < 3
    ensures SparseDot(StateJacobian(s, accel, dt), i, f) + SparseNoise(NoiseJacobian(s, dt), i, n)
         == Times(NormSquared(s.quat), f(i))
          - Times(dt, Inner(HomogeneousRow(s.quat, i), Add3(Vector3(f(9), f(10), f(11)), Vector3(n(3), n(4), n(5)))))
  {
    NoisyDot(dt, HomogeneousRow(s.quat, i), Vector3(f(9), f(10), f(11)), Vector3(n(3), n(4), n(5)));
  }

  lemma VelocitySparse(s: NominalState, accel: Vector3, dt: real, i: int, f: Vec, n: Vec)
    requires 3 <= i < 6
    ensures SparseDot(StateJacobian(s, accel, dt), i, f) + SparseNoise(NoiseJacobian(s, dt), i, n)
         == f(i)
          + Times(dt, At3(Cross(Vector3(f(0), f(1), f(2)), RotateHomogeneous(s.quat, Sub3(accel, s.accelBias))), i - 3))
          - Times(dt, Inner(RotationRow(s.quat, i - 3), Add3(Vector3(f(12), f(13), f(14)), Vector3(n(0), n(1), n(2)))))
  {
    NoisyDot(dt, RotationRow(s.quat, i - 3), Vector3(f(12), f(13), f(14)), Vector3(n(0), n(1), n(2)));
    TurnedRow(Vector3(f(0), f(1), f(2)), RotateHomogeneous(s.quat, Sub3(accel, s.accelBias)), dt, i - 3);
  }

  lemma SparseApplied(s: NominalState, accel: Vector3, dt: real, e: StateError, noise: Imu, i: int)
    requires 0 <= i < 15
    ensures SparseDot(StateJacobian(s, accel, dt), i, ErrorVector(e))
            + SparseNoise(NoiseJacobian(s, dt), i, NoiseVector(noise))
         == Slope(s, accel, dt, e, noise, i)
  {
    var f, n := ErrorVector(e), NoiseVector(noise);
    assert Vector3(f(0), f(1), f(2)) == e.theta;
    assert Vector3(f(9), f(10), f(11)) == e.gyroBias;
    assert Vector3(f(12), f(13), f(14)) == e.accelBias;
    assert Vector3(n(0), n(1), n(2)) == noise.accel && Vector3(n(3), n(4), n(5)) == noise.gyro;
    if i < 3 {
      AttitudeSparse(s, accel, dt, i, f, n);
    } else if i < 6 {
      VelocitySparse(s, accel, dt, i, f, n);
    }
  }

  lemma SparseApply(a: Mat, i: int, f: Vec)
    requires 0 <= i < 15 && SparsePattern(a, i)
    ensures Apply(15, a, f)(i) == SparseDot(a, i, f)
  {
    SparseSum(a, i, f, k => a(i, k) * f(k));
  }

  lemma NoiseApply(a: Mat, i: int, f: Vec)
    requires NoisePattern(a, i)
    ensures Apply(6, a, f)(i) == SparseNoise(a, i, f)
  {
    NoiseSum(a, i, f, k => a(i, k) * f(k));
  }

  lemma JacobianPatterns(s: NominalState, accel: Vector3, dt: real, i: int)
    requires 0 <= i < 15
    ensures SparsePattern(StateJacobian(s, accel, dt), i)
    ensures NoisePattern(NoiseJacobian(s, dt), i)
  {
  }

  /** The two Jacobians applied to an error and a noise give the closed-form slope. */
  lemma JacobianApplied(s: NominalState, accel: Vector3, dt: real, e: StateError, noise: Imu, i: int)
    requires 0 <= i < 15
    ensures Apply(15, StateJacobian(s, accel, dt), ErrorVector(e))(i)
            + Apply(6, NoiseJacobian(s, dt), NoiseVector(noise))(i)
         == Slope(s, accel, dt, e, noise, i)
  {
    JacobianPatterns(s, accel, dt, i);
    SparseApply(StateJacobian(s, accel, dt), i, ErrorVector(e));
    NoiseApply(NoiseJacobian(s, dt), i, NoiseVector(noise));
    SparseApplied(s, accel, dt, e, noise, i);
  }

  lemma ErrorVectorParts(e: StateError, i: int)
    requires 0 <= i < 15
    ensures ErrorVector(e)(i) == if i < 3 then At3(e.theta, i) else if i < 6 then At3(e.vel, i - 3)
                                 else if i < 9 then At3(e.pos, i - 6) else if i < 12 then At3(e.gyroBias, i - 9)
                                 else At3(e.accelBias, i - 12)
  {
  }

  // The linearisation is the derivative of the truncated error along every direction.

  function ScaleError(t: real, e: StateError): StateError {
    StateError(Scale3(t, e.theta), Scale3(t, e.vel), Scale3(t, e.pos), Scale3(t, e.gyroBias), Scale3(t, e.accelBias))
  }

  function ScaleImu(t: real, n: Imu): Imu {
    Imu(Scale3(t, n.accel), Scale3(t, n.gyro))
  }

  /** The truncated error at parameter t of the line through zero in direction (e, noise). */
  function TruncatedAt(s: NominalState, meas: Imu, g: real, dt: real, e: StateError, noise: Imu, t: real): StateError {
    TruncatedError(s, ScaleError(t, e), meas, ScaleImu(t, noise), g, dt)
  }

  /** Component i of the truncated error along that line. */
  ghost function TruncatedAlong(s: NominalState, meas: Imu, g: real, dt: real, e: StateError, noise: Imu,
                                i: int): Vec1 {
    t => ErrorVector(TruncatedAt(s, meas, g, dt, e, noise, t))(i)
  }

  type Vec1 = real -> real

  ghost function Abs(x: real): real {
    if x >= 0.0 then x else -x
  }

  ghost predicate NearLine(x: real, t: real, slope: real, c: real) {
    Abs(x - t * slope) <= c * (t * t)
  }

  ghost predicate QuadraticallyClose(f: Vec1, slope: real, c: real) {
    forall t :: -1.0 <= t <= 1.0 ==> NearLine(f(t), t, slope, c)
  }

  /** `f(0) == 0` and `f` has derivative `slope` at 0, with an error bounded by a multiple of t*t. */
  ghost predicate HasSlopeAtZero(f: Vec1, slope: real) {
    exists c :: c >= 0.0 && QuadraticallyClose(f, slope, c)
  }

  lemma ProductBound(t: real, c: real)
    requires -1.0 <= t <= 1.0
    ensures -Abs(c) <= t * c <= Abs(c)
  {
    ProductNonNegative(1.0 - t, Abs(c));
    ProductNonNegative(1.0 + t, Abs(c));
    assert (1.0 - t) * Abs(c) == Abs(c) - t * Abs(c);
    assert (1.0 + t) * Abs(c) == Abs(c) + t * Abs(c);
    assert t * -c == -(t * c);
  }

  lemma ScaledBound(x: real, y: real, c: real)
    requires x >= 0.0 && -c <= y <= c
    ensures Abs(x * y) <= c * x
  {
    ProductNonNegative(x, c - y);
    ProductNonNegative(x, c + y);
    assert x * (c - y) == c * x - x * y;
    assert x * (c + y) == c * x + x * y;
  }

  lemma TailFactors(t: real, slope: real, c2: real, c3: real, tt: real, y: real)
    requires tt == t * t && y == c2 + t * c3
    ensures Cubic(0.0, t, slope, c2, c3) - t * slope == tt * y
  {
    assert t * t * (c2 + t * c3) == t * t * c2 + t * t * t * c3;
  }

  lemma CubicTail(t: real, slope: real, c2: real, c3: real)
    requires -1.0 <= t <= 1.0
    ensures NearLine(Cubic(0.0, t, slope, c2, c3), t, slope, Abs(c2) + Abs(c3))
  {
    var tt, y, x := t * t, c2 + t * c3, Cubic(0.0, t, slope, c2, c3);
    ProductBound(t, c3);
    SquareNonNegative(t);
    ScaledBound(tt, y, Abs(c2) + Abs(c3));
    TailFactors(t, slope, c2, c3, tt, y);
    assert Abs(x - t * slope) <= (Abs(c2) + Abs(c3)) * tt;
  }

  lemma CubicHasSlope(f: Vec1, slope: real, c2: real, c3: real)
    requires forall t :: f(t) == Cubic(0.0, t, slope, c2, c3)
    ensures HasSlopeAtZero(f, slope)
  {
    var c := Abs(c2) + Abs(c3);
    forall t: real | -1.0 <= t <= 1.0
      ensures NearLine(f(t), t, slope, c)
    {
      CubicTail(t, slope, c2, c3);
    }
    assert QuadraticallyClose(f, slope, c);
  }

  lemma ScaledSum(t: real, a: real, b: real)
    ensures Added(Times(t, a), Times(t, b)) == Times(t, Added(a, b))
  {
  }

  lemma ScaledDot(t: real, k: real, a: real, b: real, c: real, x: real, y: real, z: real)
    ensures Dot3(a, b, c, Times(k, Times(t, x)), Times(k, Times(t, y)), Times(k, Times(t, z)))
         == Times(t, Times(k, Dot3(a, b, c, x, y, z)))
  {
    calc {
      Dot3(a, b, c, k * (t * x), k * (t * y), k * (t * z));
      a * (k * (t * x)) + b * (k * (t * y)) + c * (k * (t * z));
      t * (k * (a * x + b * y + c * z));
      Times(t, Times(k, a * x + b * y + c * z));
    }
  }

  lemma AttitudePartTerms(t: real, dt: real, n: real, a: real, b: real, c: real, x: real, y: real, z: real)
    ensures 2.0 * (t * (-0.5 * dt * x) + 0.5 * (t * a) * n
                   + 0.5 * (t * b) * (t * (-0.5 * dt * z)) - 0.5 * (t * c) * (t * (-0.5 * dt * y)))
         == t * (n * a - dt * x) + t * t * (-0.5 * dt * (b * z - c * y))
  {
  }

  lemma AttitudePart(t: real, dt: real, n: real, a: real, b: real, c: real, x: real, y: real, z: real)
    ensures Times(2.0, MulX(1.0, Times(0.5, Times(t, a)), Times(0.5, Times(t, b)), Times(0.5, Times(t, c)),
                            Times(1.0, n), Times(t, Times(-0.5 * dt, x)), Times(t, Times(-0.5 * dt, y)),
                            Times(t, Times(-0.5 * dt, z))))
         == Cubic(0.0, t, Minus(Times(n, a), Times(dt, x)), Times(-0.5 * dt, Minor(b, c, y, z)), 0.0)
  {
    var p, q, r := Times(t, Times(-0.5 * dt, x)), Times(t, Times(-0.5 * dt, y)), Times(t, Times(-0.5 * dt, z));
    var k, l, m := Times(0.5, Times(t, a)), Times(0.5, Times(t, b)), Times(0.5, Times(t, c));
    assert Times(2.0, MulX(1.0, k, l, m, Times(1.0, n), p, q, r)) == 2.0 * (1.0 * p + k * (1.0 * n) + l * r - m * q);
    assert p == t * (-0.5 * dt * x) && q == t * (-0.5 * dt * y) && r == t * (-0.5 * dt * z);
    assert k == 0.5 * (t * a) && l == 0.5 * (t * b) && m == 0.5 * (t * c);
    AttitudePartTerms(t, dt, n, a, b, c, x, y, z);
    var u, v := Minus(Times(n, a), Times(dt, x)), Times(-0.5 * dt, Minor(b, c, y, z));
    assert u == n * a - dt * x && v == -0.5 * dt * (b * z - c * y);
    assert Cubic(0.0, t, u, v, 0.0) == t * u + t * t * v;
  }

  lemma AttitudeAlong(q: Quaternion, theta: Vector3, w: Vector3, dt: real, t: real, i: int)
    requires 0 <= i < 3
    ensures At3(AttitudeErrorFirstOrder(q, Scale3(t, theta), Scale3(t, w), dt), i)
         == Cubic(0.0, t, Minus(Times(NormSquared(q), At3(theta, i)), Times(dt, At3(RotateHomogeneous(q, w), i))),
                  Times(-0.5 * dt, At3(Cross(theta, RotateHomogeneous(q, w)), i)), 0.0)
  {
    SandwichIsRotation(q, 1.0, Scale3(-0.5 * dt, Scale3(t, w)));
    var h0, h1, h2 := HomogeneousRow(q, 0), HomogeneousRow(q, 1), HomogeneousRow(q, 2);
    ScaledDot(t, -0.5 * dt, h0.x, h0.y, h0.z, w.x, w.y, w.z);
    ScaledDot(t, -0.5 * dt, h1.x, h1.y, h1.z, w.x, w.y, w.z);
    ScaledDot(t, -0.5 * dt, h2.x, h2.y, h2.z, w.x, w.y, w.z);
    var r, n := RotateHomogeneous(q, w), NormSquared(q);
    AttitudePart(t, dt, n, theta.x, theta.y, theta.z, r.x, r.y, r.z);
    AttitudePart(t, dt, n, theta.y, theta.z, theta.x, r.y, r.z, r.x);
    AttitudePart(t, dt, n, theta.z, theta.x, theta.y, r.z, r.x, r.y);
  }

  lemma RateAlong(e: StateError, noise: Imu, t: real)
    ensures RateError(ScaleError(t, e), ScaleImu(t, noise)) == Scale3(t, RateError(e, noise))
  {
    ScaledSum(t, e.gyroBias.x, noise.gyro.x);
    ScaledSum(t, e.gyroBias.y, noise.gyro.y);
    ScaledSum(t, e.gyroBias.z, noise.gyro.z);
  }

  /** The coefficient of t*t of component i of the truncated attitude error along a line. */
  function AttitudeC2(q: Quaternion, theta: Vector3, w: Vector3, dt: real, i: int): real {
    Times(-0.5 * dt, At3(Cross(theta, RotateHomogeneous(q, w)), i))
  }

  lemma TruncatedAttitudeAlong(s: NominalState, meas: Imu, g: real, dt: real, e: StateError, noise: Imu, t: real,
                               i: int)
    requires 0 <= i < 3
    ensures At3(AttitudeErrorFirstOrder(s.quat, Scale3(t, e.theta), Scale3(t, RateError(e, noise)), dt), i)
         == Cubic(0.0, t, Slope(s, meas.accel, dt, e, noise, i),
                  AttitudeC2(s.quat, e.theta, RateError(e, noise), dt, i), 0.0)
  {
    AttitudeAlong(s.quat, e.theta, RateError(e, noise), dt, t, i);
  }

  lemma AttitudeSlope(s: NominalState, meas: Imu, g: real, dt: real, e: StateError, noise: Imu, i: int)
    requires 0 <= i < 3
    ensures HasSlopeAtZero(TruncatedAlong(s, meas, g, dt, e, noise, i), Slope(s, meas.accel, dt, e, noise, i))
  {
    var f, slope := TruncatedAlong(s, meas, g, dt, e, noise, i), Slope(s, meas.accel, dt, e, noise, i);
    var c2 := AttitudeC2(s.quat, e.theta, RateError(e, noise), dt, i);
    forall t: real ensures f(t) == Cubic(0.0, t, slope, c2, 0.0) {
      RateAlong(e, noise, t);
      TruncatedAttitudeAlong(s, meas, g, dt, e, noise, t, i);
      ErrorVectorParts(TruncatedAt(s, meas, g, dt, e, noise, t), i);
    }
    CubicHasSlope(f, slope, c2, 0.0);
  }

  lemma VelocityPart(dt: real, t: real, v: real, dv: real, grav: real, r0: real, c1: real, c2: real, c3: real)
    ensures Minus(Added(Added(v, Times(t, dv)), Times(dt, Added(Cubic(r0, t, c1, c2, c3), grav))),
                  Added(v, Times(dt, Added(r0, grav))))
         == Cubic(0.0, t, dv + Times(dt, c1), Times(dt, c2), Times(dt, c3))
  {
    calc {
      Minus(Added(Added(v, Times(t, dv)), Times(dt, Added(Cubic(r0, t, c1, c2, c3), grav))),
            Added(v, Times(dt, Added(r0, grav))));
      v + t * dv + dt * (r0 + t * c1 + t * t * c2 + t * t * t * c3 + grav) - (v + dt * (r0 + grav));
      0.0 + t * (dv + dt * c1) + t * t * (dt * c2) + t * t * t * (dt * c3);
      Cubic(0.0, t, dv + dt * c1, dt * c2, dt * c3);
    }
  }

  lemma InputPart(m: real, b: real, t: real, db: real, n: real)
    ensures Minus(Minus(m, Added(b, Times(t, db))), Times(t, n)) == Minus(Minus(m, b), Times(t, Added(db, n)))
  {
    assert t * (db + n) == t * db + t * n;
  }

  function AccelError(e: StateError, noise: Imu): Vector3 {
    Add3(e.accelBias, noise.accel)
  }

  // Coefficients, in powers of t, of component i of the rotated true input.

  function RotatedC1(s: NominalState, accel: Vector3, e: StateError, noise: Imu, i: int): real {
    Minus(At3(Cross(e.theta, RotateHomogeneous(s.quat, Sub3(accel, s.accelBias))), i),
          Inner(RotationRow(s.quat, i), AccelError(e, noise)))
  }

  function RotatedC2(s: NominalState, accel: Vector3, e: StateError, noise: Imu, i: int): real {
    var p := HalfTurn(e.theta, s.quat);
    Minus(Inner(QuadraticRow(p, i), Sub3(accel, s.accelBias)), Inner(MixedRow(s.quat, p, i), AccelError(e, noise)))
  }

  function RotatedC3(s: NominalState, e: StateError, noise: Imu, i: int): real {
    Negated(Inner(QuadraticRow(HalfTurn(e.theta, s.quat), i), AccelError(e, noise)))
  }

  /** The true acceleration along the line, rotated by the true attitude. */
  lemma RotatedInputAlong(s: NominalState, meas: Imu, t: real, e: StateError, noise: Imu, i: int)
    requires 0 <= i < 3
    ensures At3(Rotate(TrueState(s, ScaleError(t, e)).quat,
                       TrueInput(s, ScaleError(t, e), meas, ScaleImu(t, noise)).accel), i)
         == Cubic(At3(Rotate(s.quat, NominalInput(s, meas).accel), i), t, RotatedC1(s, meas.accel, e, noise, i),
                  RotatedC2(s, meas.accel, e, noise, i), RotatedC3(s, e, noise, i))
  {
    var q, u, w, p := s.quat, Sub3(meas.accel, s.accelBias), AccelError(e, noise), HalfTurn(e.theta, s.quat);
    SmallRotationMoves(t, e.theta, q);
    RotationAlong(q, t, p, i, 0);
    RotationAlong(q, t, p, i, 1);
    RotationAlong(q, t, p, i, 2);
    InputPart(meas.accel.x, s.accelBias.x, t, e.accelBias.x, noise.accel.x);
    InputPart(meas.accel.y, s.accelBias.y, t, e.accelBias.y, noise.accel.y);
    InputPart(meas.accel.z, s.accelBias.z, t, e.accelBias.z, noise.accel.z);
    DotAlong(t, RotationRow(q, i), MixedRow(q, p, i), QuadraticRow(p, i), u, w);
    RotatedDerivative(q, e.theta, u, i);
  }

  lemma VelocityAlong(s: NominalState, meas: Imu, g: real, dt: real, e: StateError, noise: Imu, i: int, t: real)
    requires 0 <= i < 3
    ensures At3(TruncatedAt(s, meas, g, dt, e, noise, t).vel, i)
         == Cubic(0.0, t, At3(e.vel, i) + Times(dt, RotatedC1(s, meas.accel, e, noise, i)),
                  Times(dt, RotatedC2(s, meas.accel, e, noise, i)), Times(dt, RotatedC3(s, e, noise, i)))
  {
    RotatedInputAlong(s, meas, t, e, noise, i);
    VelocityPart(dt, t, At3(s.vel, i), At3(e.vel, i), At3(Vector3(0.0, 0.0, g), i),
                 At3(Rotate(s.quat, NominalInput(s, meas).accel), i), RotatedC1(s, meas.accel, e, noise, i),
                 RotatedC2(s, meas.accel, e, noise, i), RotatedC3(s, e, noise, i));
  }

  lemma DistributeMinus(k: real, a: real, b: real)
    ensures Times(k, Minus(a, b)) == Times(k, a) - Times(k, b)
  {
  }

  lemma VelocitySlope(s: NominalState, meas: Imu, g: real, dt: real, e: StateError, noise: Imu, i: int)
    requires 3 <= i < 6
    ensures HasSlopeAtZero(TruncatedAlong(s, meas, g, dt, e, noise, i), Slope(s, meas.accel, dt, e, noise, i))
  {
    var f := TruncatedAlong(s, meas, g, dt, e, noise, i);
    var slope := At3(e.vel, i - 3) + Times(dt, RotatedC1(s, meas.accel, e, noise, i - 3));
    var c2, c3 := Times(dt, RotatedC2(s, meas.accel, e, noise, i - 3)), Times(dt, RotatedC3(s, e, noise, i - 3));
    forall t: real ensures f(t) == Cubic(0.0, t, slope, c2, c3) {
      VelocityAlong(s, meas, g, dt, e, noise, i - 3, t);
      ErrorVectorParts(TruncatedAt(s, meas, g, dt, e, noise, t), i);
    }
    CubicHasSlope(f, slope, c2, c3);
    DistributeMinus(dt, At3(Cross(e.theta, RotateHomogeneous(s.quat, Sub3(meas.accel, s.accelBias))), i - 3),
                    Inner(RotationRow(s.quat, i - 3), AccelError(e, noise)));
  }

  lemma LinearPart(a: real, t: real, b: real, dt: real, v: real, c: real)
    ensures Minus(Added(Added(a, Times(t, b)), Times(dt, Added(v, Times(t, c)))), Added(a, Times(dt, v)))
         == Cubic(0.0, t, b + Times(dt, c), 0.0, 0.0)
  {
    assert a + t * b + dt * (v + t * c) - (a + dt * v) == 0.0 + t * (b + dt * c) + t * t * 0.0 + t * t * t * 0.0;
  }

  lemma BiasPart(a: real, t: real, b: real)
    ensures Minus(Added(a, Times(t, b)), a) == Cubic(0.0, t, b, 0.0, 0.0)
  {
  }

  lemma OtherAlong(s: NominalState, meas: Imu, g: real, dt: real, e: StateError, noise: Imu, i: int, t: real)
    requires 6 <= i < 15
    ensures TruncatedAlong(s, meas, g, dt, e, noise, i)(t)
              == Cubic(0.0, t, Slope(s, meas.accel, dt, e, noise, i), 0.0, 0.0)
  {
    ErrorVectorParts(TruncatedAt(s, meas, g, dt, e, noise, t), i);
    if i < 9 {
      LinearPart(At3(s.pos, i - 6), t, At3(e.pos, i - 6), dt, At3(s.vel, i - 6), At3(e.vel, i - 6));
    } else if i < 12 {
      BiasPart(At3(s.gyroBias, i - 9), t, At3(e.gyroBias, i - 9));
    } else {
      BiasPart(At3(s.accelBias, i - 12), t, At3(e.accelBias, i - 12));
    }
  }

  lemma OtherSlope(s: NominalState, meas: Imu, g: real, dt: real, e: StateError, noise: Imu, i: int)
    requires 6 <= i < 15
    ensures HasSlopeAtZero(TruncatedAlong(s, meas, g, dt, e, noise, i), Slope(s, meas.accel, dt, e, noise, i))
  {
    var f, slope := TruncatedAlong(s, meas, g, dt, e, noise, i), Slope(s, meas.accel, dt, e, noise, i);
    forall t: real ensures f(t) == Cubic(0.0, t, slope, 0.0, 0.0) {
      OtherAlong(s, meas, g, dt, e, noise, i, t);
    }
    CubicHasSlope(f, slope, 0.0, 0.0);
  }

  /**
   `StateJacobian` and `NoiseJacobian` are the derivative of the truncated error at zero error and
   zero noise: along every direction, each component leaves 0 with exactly the slope they give. What
   the truncation takes from the slope of the predicted error is the subject of module DroppedTerms.
   */
  lemma JacobiansAreDerivative(s: NominalState, meas: Imu, g: real, dt: real, e: StateError, noise: Imu, i: int)
    requires 0 <= i < 15
    ensures HasSlopeAtZero(TruncatedAlong(s, meas, g, dt, e, noise, i),
                           Apply(15, StateJacobian(s, meas.accel, dt), ErrorVector(e))(i)
                         + Apply(6, NoiseJacobian(s, dt), NoiseVector(noise))(i))
  {
    JacobianApplied(s, meas.accel, dt, e, noise, i);
    if i < 3 {
      AttitudeSlope(s, meas, g, dt, e, noise, i);
    } else if i < 6 {
      VelocitySlope(s, meas, g, dt, e, noise, i);
    } else {
      OtherSlope(s, meas, g, dt, e, noise, i);
    }
  }
}
