/**
 What dropping the squared time step costs: the slope of the predicted error itself, and when it is
 the one the Jacobians give.
 */
module DroppedTerms {
  import opened Attitude
  import opened ErrorDynamics
  import opened LinearAlgebra
  import opened Reals

  /** Component i of the predicted error, nothing dropped, along the line through zero in direction (e, noise). */
  ghost function PredictedAlong(s: NominalState, meas: Imu, g: real, dt: real, e: StateError, noise: Imu,
                                i: int): Vec1 {
    t => ErrorVector(PredictedError(s, ScaleError(t, e), meas, ScaleImu(t, noise), g, dt))(i)
  }

  /** The slope of the coefficient of dt*dt of the attitude error. */
  function DroppedSlope(s: NominalState, meas: Imu, e: StateError, noise: Imu): Vector3 {
    var w, gyro := RateError(e, noise), NominalInput(s, meas).gyro;
    Plus3(Scale3(0.5, RotateHomogeneous(s.quat, Cross(w, gyro))),
          Times(0.25, Times(NormSquared(s.quat), Inner(gyro, gyro))), e.theta)
  }

  function DroppedC2(q: Quaternion, theta: Vector3, w: Vector3, gyro: Vector3, i: int): real {
    Minus(Times(0.25, At3(Cross(theta, RotateHomogeneous(q, Cross(w, gyro))), i)),
          Times(Times(0.25, Times(NormSquared(q), Inner(w, gyro))), At3(theta, i)))
  }

  lemma SecondPartTerms(t: real, n: real, gg: real, wg: real, a: real, b: real, c: real, x: real, y: real, z: real)
    ensures 2.0 * (0.25 * (t * x) + 0.5 * (t * a) * (0.25 * (gg - t * wg) * n)
                   + 0.5 * (t * b) * (0.25 * (t * z)) - 0.5 * (t * c) * (0.25 * (t * y)))
         == t * (0.5 * x + 0.25 * (n * gg) * a) + t * t * (0.25 * (b * z - c * y) - 0.25 * (n * wg) * a)
  {
  }

  ghost predicate ScalarIs(u: real, t: real, gg: real, wg: real, n: real) {
    u == 0.25 * (gg - t * wg) * n
  }

  ghost predicate QuarterIs(p: real, t: real, x: real) {
    p == 0.25 * (t * x)
  }

  /** One component of twice the vector part of `(1, t theta / 2) (u, r)`. */
  lemma SecondPart(t: real, n: real, gg: real, wg: real, a: real, b: real, c: real, x: real, y: real, z: real,
                   u: real, p: real, q: real, r: real)
    requires ScalarIs(u, t, gg, wg, n) && QuarterIs(p, t, x) && QuarterIs(q, t, y) && QuarterIs(r, t, z)
    ensures Times(2.0, MulX(1.0, Times(0.5, Times(t, a)), Times(0.5, Times(t, b)), Times(0.5, Times(t, c)), u, p, q, r))
         == Cubic(0.0, t, Plus(Times(0.5, x), Times(0.25, Times(n, gg)), a),
                  Minus(Times(0.25, Minor(b, c, y, z)), Times(Times(0.25, Times(n, wg)), a)), 0.0)
  {
    var k, l, m := Times(0.5, Times(t, a)), Times(0.5, Times(t, b)), Times(0.5, Times(t, c));
    assert k == 0.5 * (t * a) && l == 0.5 * (t * b) && m == 0.5 * (t * c);
    assert Times(2.0, MulX(1.0, k, l, m, u, p, q, r)) == 2.0 * (1.0 * p + k * u + l * r - m * q);
    SecondPartTerms(t, n, gg, wg, a, b, c, x, y, z);
    var c1, c2 := Plus(Times(0.5, x), Times(0.25, Times(n, gg)), a),
      Minus(Times(0.25, Minor(b, c, y, z)), Times(Times(0.25, Times(n, wg)), a));
    assert c1 == 0.5 * x + 0.25 * (n * gg) * a && c2 == 0.25 * (b * z - c * y) - 0.25 * (n * wg) * a;
    assert Cubic(0.0, t, c1, c2, 0.0) == t * c1 + t * t * c2;
  }

  lemma ScaledMinor(t: real, a: real, b: real, x: real, y: real)
    ensures Minor(Times(t, a), Times(t, b), x, y) == Times(t, Minor(a, b, x, y))
  {
    assert t * a * y - t * b * x == t * (a * y - b * x);
  }

  lemma ScaledCross(t: real, w: Vector3, v: Vector3)
    ensures Cross(Scale3(t, w), v) == Scale3(t, Cross(w, v))
  {
    ScaledMinor(t, w.y, w.z, v.y, v.z);
    ScaledMinor(t, w.z, w.x, v.z, v.x);
    ScaledMinor(t, w.x, w.y, v.x, v.y);
  }

  lemma ScaledRow(t: real, k: real, h: Vector3, c: Vector3)
    ensures Inner(h, Scale3(k, Scale3(t, c))) == k * (t * Inner(h, c))
  {
    ScaledDot(t, k, h.x, h.y, h.z, c.x, c.y, c.z);
    assert t * (k * Inner(h, c)) == k * (t * Inner(h, c));
  }

  lemma ShiftedInner(t: real, g: Vector3, w: Vector3)
    ensures Inner(Sub3(g, Scale3(t, w)), g) == Inner(g, g) - t * Inner(w, g)
  {
    calc {
      Inner(Sub3(g, Scale3(t, w)), g);
      (g.x - t * w.x) * g.x + (g.y - t * w.y) * g.y + (g.z - t * w.z) * g.z;
      (g.x * g.x + g.y * g.y + g.z * g.z) - t * (w.x * g.x + w.y * g.y + w.z * g.z);
    }
  }

  lemma ScalarPart(t: real, gg: real, wg: real, n: real, s: real)
    requires s == gg - t * wg
    ensures ScalarIs(Times(Times(0.25, s), n), t, gg, wg, n)
  {
  }

  /** The turned quaternion that carries the coefficient of dt*dt, along a line of rate errors. */
  lemma TurnedRest(q: Quaternion, w: Vector3, gyro: Vector3, t: real) returns (u: real, b: Vector3)
    ensures Sandwich(q, WithVector(Times(0.25, Inner(Sub3(gyro, Scale3(t, w)), gyro)),
                                   Scale3(0.25, Cross(Scale3(t, w), gyro))))
         == WithVector(u, b)
    ensures ScalarIs(u, t, Inner(gyro, gyro), Inner(w, gyro), NormSquared(q))
    ensures var r := RotateHomogeneous(q, Cross(w, gyro));
            QuarterIs(b.x, t, r.x) && QuarterIs(b.y, t, r.y) && QuarterIs(b.z, t, r.z)
  {
    var c, inner := Cross(w, gyro), Inner(Sub3(gyro, Scale3(t, w)), gyro);
    var v := Scale3(0.25, Scale3(t, c));
    u, b := Times(Times(0.25, inner), NormSquared(q)), RotateHomogeneous(q, v);
    ScaledCross(t, w, gyro);
    ShiftedInner(t, gyro, w);
    ScalarPart(t, Inner(gyro, gyro), Inner(w, gyro), NormSquared(q), inner);
    SandwichIsRotation(q, Times(0.25, inner), v);
    ScaledRow(t, 0.25, HomogeneousRow(q, 0), c);
    ScaledRow(t, 0.25, HomogeneousRow(q, 1), c);
    ScaledRow(t, 0.25, HomogeneousRow(q, 2), c);
  }

  /** The coefficient of dt*dt along a line. */
  lemma SecondOrderAlong(q: Quaternion, theta: Vector3, w: Vector3, gyro: Vector3, t: real, i: int)
    requires 0 <= i < 3
    ensures At3(AttitudeErrorSecondOrder(q, Scale3(t, theta), Scale3(t, w), gyro), i)
         == Cubic(0.0, t, Plus(Times(0.5, At3(RotateHomogeneous(q, Cross(w, gyro)), i)),
                               Times(0.25, Times(NormSquared(q), Inner(gyro, gyro))), At3(theta, i)),
                  DroppedC2(q, theta, w, gyro, i), 0.0)
  {
    var n, gg, wg, r := NormSquared(q), Inner(gyro, gyro), Inner(w, gyro), RotateHomogeneous(q, Cross(w, gyro));
    var u, b := TurnedRest(q, w, gyro, t);
    if i == 0 {
      SecondPart(t, n, gg, wg, theta.x, theta.y, theta.z, r.x, r.y, r.z, u, b.x, b.y, b.z);
    } else if i == 1 {
      SecondPart(t, n, gg, wg, theta.y, theta.z, theta.x, r.y, r.z, r.x, u, b.y, b.z, b.x);
    } else {
      SecondPart(t, n, gg, wg, theta.z, theta.x, theta.y, r.z, r.x, r.y, u, b.z, b.x, b.y);
    }
  }

  lemma AddedCubics(t: real, a: real, b: real, k: real, c: real, d: real)
    ensures Plus(Cubic(0.0, t, a, b, 0.0), k, Cubic(0.0, t, c, d, 0.0))
              == Cubic(0.0, t, Plus(a, k, c), Plus(b, k, d), 0.0)
  {
    assert k * (t * c + t * t * d) == t * (k * c) + t * t * (k * d);
  }

  /** Component i of the attitude error predicted along a line, nothing dropped. */
  lemma AttitudePredicted(s: NominalState, meas: Imu, g: real, dt: real, e: StateError, noise: Imu, t: real, i: int)
    requires 0 <= i < 3
    ensures PredictedAlong(s, meas, g, dt, e, noise, i)(t)
         == Cubic(0.0, t, Plus(Slope(s, meas.accel, dt, e, noise, i), dt * dt, At3(DroppedSlope(s, meas, e, noise), i)),
                  Plus(AttitudeC2(s.quat, e.theta, RateError(e, noise), dt, i), dt * dt,
                       DroppedC2(s.quat, e.theta, RateError(e, noise), NominalInput(s, meas).gyro, i)), 0.0)
  {
    var w, gyro := RateError(e, noise), NominalInput(s, meas).gyro;
    AttitudeErrorSplits(s, ScaleError(t, e), meas, ScaleImu(t, noise), g, dt);
    RateAlong(e, noise, t);
    TruncatedAttitudeAlong(s, meas, g, dt, e, noise, t, i);
    SecondOrderAlong(s.quat, e.theta, w, gyro, t, i);
    ErrorVectorParts(PredictedError(s, ScaleError(t, e), meas, ScaleImu(t, noise), g, dt), i);
    AddedCubics(t, Slope(s, meas.accel, dt, e, noise, i), AttitudeC2(s.quat, e.theta, w, dt, i), dt * dt,
                At3(DroppedSlope(s, meas, e, noise), i), DroppedC2(s.quat, e.theta, w, gyro, i));
  }

  /** What truncation takes from the slope of component i: nothing past the attitude. */
  function Missing(s: NominalState, meas: Imu, dt: real, e: StateError, noise: Imu, i: int): real {
    if i < 3 then Times(dt * dt, At3(DroppedSlope(s, meas, e, noise), i)) else 0.0
  }

  /** The slope the Jacobians give. */
  ghost function JacobianSlope(s: NominalState, meas: Imu, dt: real, e: StateError, noise: Imu, i: int): real {
    Apply(15, StateJacobian(s, meas.accel, dt), ErrorVector(e))(i)
    + Apply(6, NoiseJacobian(s, dt), NoiseVector(noise))(i)
  }

  lemma SameSlope(f: Vec1, h: Vec1, slope: real)
    requires HasSlopeAtZero(h, slope) && forall t :: f(t) == h(t)
    ensures HasSlopeAtZero(f, slope)
  {
    var c :| c >= 0.0 && QuadraticallyClose(h, slope, c);
    forall t: real | -1.0 <= t <= 1.0
      ensures NearLine(f(t), t, slope, c)
    {
      assert NearLine(h(t), t, slope, c);
    }
    assert QuadraticallyClose(f, slope, c);
  }

  /** Past the attitude nothing was dropped. */
  lemma OthersAreTruncated(s: NominalState, meas: Imu, g: real, dt: real, e: StateError, noise: Imu, i: int, t: real)
    requires 3 <= i < 15
    ensures PredictedAlong(s, meas, g, dt, e, noise, i)(t) == TruncatedAlong(s, meas, g, dt, e, noise, i)(t)
  {
    ErrorVectorParts(PredictedError(s, ScaleError(t, e), meas, ScaleImu(t, noise), g, dt), i);
    ErrorVectorParts(TruncatedAt(s, meas, g, dt, e, noise, t), i);
  }

  lemma AttitudeFullSlope(s: NominalState, meas: Imu, g: real, dt: real, e: StateError, noise: Imu, i: int, slope: real)
    requires 0 <= i < 3
    requires slope == Plus(Slope(s, meas.accel, dt, e, noise, i), dt * dt, At3(DroppedSlope(s, meas, e, noise), i))
    ensures HasSlopeAtZero(PredictedAlong(s, meas, g, dt, e, noise, i), slope)
  {
    var f := PredictedAlong(s, meas, g, dt, e, noise, i);
    var c2 := Plus(AttitudeC2(s.quat, e.theta, RateError(e, noise), dt, i), dt * dt,
      DroppedC2(s.quat, e.theta, RateError(e, noise), NominalInput(s, meas).gyro, i));
    forall t: real ensures f(t) == Cubic(0.0, t, slope, c2, 0.0) {
      AttitudePredicted(s, meas, g, dt, e, noise, t, i);
    }
    CubicHasSlope(f, slope, c2, 0.0);
  }

  /**
   The slope of the predicted error itself, along every direction: that of the Jacobians, and for the
   attitude dt*dt times `|q|^2 |gyro|^2 / 4` of the turn plus half the turned cross product of rate
   error and rate.
   */
  lemma PredictedSlope(s: NominalState, meas: Imu, g: real, dt: real, e: StateError, noise: Imu, i: int)
    requires 0 <= i < 15
    ensures HasSlopeAtZero(PredictedAlong(s, meas, g, dt, e, noise, i),
                           JacobianSlope(s, meas, dt, e, noise, i) + Missing(s, meas, dt, e, noise, i))
  {
    if i < 3 {
      JacobianApplied(s, meas.accel, dt, e, noise, i);
      AttitudeFullSlope(s, meas, g, dt, e, noise, i,
                        JacobianSlope(s, meas, dt, e, noise, i) + Missing(s, meas, dt, e, noise, i));
    } else {
      JacobiansAreDerivative(s, meas, g, dt, e, noise, i);
      forall t: real
        ensures PredictedAlong(s, meas, g, dt, e, noise, i)(t) == TruncatedAlong(s, meas, g, dt, e, noise, i)(t)
      {
        OthersAreTruncated(s, meas, g, dt, e, noise, i, t);
      }
      SameSlope(PredictedAlong(s, meas, g, dt, e, noise, i), TruncatedAlong(s, meas, g, dt, e, noise, i),
                JacobianSlope(s, meas, dt, e, noise, i));
    }
  }

  // When nothing is missing.

  lemma Triangle(x: real, p: real, q: real, r: real, s: real)
    requires Abs(x - p) <= r && Abs(x - q) <= s
    ensures Abs(p - q) <= r + s
  {
  }

  lemma LinesMeet(x: real, t: real, a: real, b: real, c: real, d: real)
    requires NearLine(x, t, a, c) && NearLine(x, t, b, d) && t > 0.0
    ensures Abs(a - b) <= (c + d) * t
  {
    Triangle(x, t * a, t * b, c * (t * t), d * (t * t));
    ScaledAbs(t, a - b);
    Regroup(t, a, b, c, d);
    DivideOut(t, Abs(a - b), (c + d) * t);
  }

  lemma Regroup(t: real, a: real, b: real, c: real, d: real)
    ensures t * a - t * b == t * (a - b) && c * (t * t) + d * (t * t) == t * ((c + d) * t)
  {
  }

  lemma ScaledAbs(t: real, x: real)
    requires t > 0.0
    ensures Abs(t * x) == t * Abs(x)
  {
    if x >= 0.0 {
      ProductNonNegative(t, x);
    } else {
      ProductNonNegative(t, -x);
      assert t * -x == -(t * x);
    }
  }

  /** A function has at most one slope. */
  lemma SlopeIsUnique(f: Vec1, a: real, b: real)
    requires HasSlopeAtZero(f, a) && HasSlopeAtZero(f, b)
    ensures a == b
  {
    var c :| c >= 0.0 && QuadraticallyClose(f, a, c);
    var d :| d >= 0.0 && QuadraticallyClose(f, b, d);
    if a != b {
      var gap, k := Abs(a - b), c + d + 1.0;
      var t := SmallStep(gap, k);
      assert NearLine(f(t), t, a, c) && NearLine(f(t), t, b, d);
      LinesMeet(f(t), t, a, b, c, d);
    }
  }

  lemma SmallStep(gap: real, k: real) returns (t: real)
    requires gap > 0.0 && k >= 1.0
    ensures 0.0 < t <= 1.0 && (k - 1.0) * t < gap
  {
    t := gap / (gap + k);
    assert t * (gap + k) == gap;
    if t <= 0.0 {
      ProductNonNegative(-t, gap + k);
    }
    assert t > 0.0;
    Positive(t, gap, t * gap);
    assert t * (gap + k) == t * gap + k * t;
    assert (k - 1.0) * t == k * t - t;
    if t > 1.0 {
      Positive(t - 1.0, gap + k, (t - 1.0) * (gap + k));
    }
  }

  const NO_ERROR := StateError(ZERO3, ZERO3, ZERO3, ZERO3, ZERO3)
  const NO_NOISE := Imu(ZERO3, ZERO3)
  const NO_TURN := Quaternion(0.0, 0.0, 0.0, 0.0)

  /** The Jacobians give the slope of the predicted error, nothing dropped, along every direction. */
  ghost predicate JacobiansSuffice(s: NominalState, meas: Imu, g: real, dt: real) {
    forall e, noise, i :: 0 <= i < 15 ==>
      HasSlopeAtZero(PredictedAlong(s, meas, g, dt, e, noise, i), JacobianSlope(s, meas, dt, e, noise, i))
  }

  lemma ZeroProduct(a: real, b: real)
    requires a * b == 0.0
    ensures a == 0.0 || b == 0.0
  {
  }

  lemma ZeroSquare(x: real, xx: real)
    requires xx == x * x
    ensures xx >= 0.0 && (xx == 0.0 ==> x == 0.0)
  {
    SquareNonNegative(x);
    if xx == 0.0 {
      ZeroProduct(x, x);
    }
  }

  lemma ZeroRate(gyro: Vector3)
    requires Inner(gyro, gyro) == 0.0
    ensures gyro == ZERO3
  {
    ZeroSquare(gyro.x, gyro.x * gyro.x);
    ZeroSquare(gyro.y, gyro.y * gyro.y);
    ZeroSquare(gyro.z, gyro.z * gyro.z);
  }

  lemma ZeroNorm(q: Quaternion)
    requires NormSquared(q) == 0.0
    ensures q == NO_TURN
  {
    ZeroSquare(q.w, q.w * q.w);
    ZeroSquare(q.x, q.x * q.x);
    ZeroSquare(q.y, q.y * q.y);
    ZeroSquare(q.z, q.z * q.z);
  }

  lemma NothingMissing(s: NominalState, meas: Imu, dt: real, e: StateError, noise: Imu, i: int)
    requires dt == 0.0 || NominalInput(s, meas).gyro == ZERO3 || s.quat == NO_TURN
    ensures Missing(s, meas, dt, e, noise, i) == 0.0
  {
    if dt != 0.0 {
      assert DroppedSlope(s, meas, e, noise) == ZERO3;
    }
  }

  lemma TurnAlone(s: NominalState, meas: Imu, dt: real, e: StateError)
    requires e == NO_ERROR.(theta := Vector3(1.0, 0.0, 0.0))
    ensures Missing(s, meas, dt, e, NO_NOISE, 0)
         == dt * dt * (0.25 * (NormSquared(s.quat) * Inner(NominalInput(s, meas).gyro, NominalInput(s, meas).gyro)))
  {
    var gyro := NominalInput(s, meas).gyro;
    assert RateError(e, NO_NOISE) == ZERO3;
    assert Cross(ZERO3, gyro) == ZERO3;
    assert RotateHomogeneous(s.quat, ZERO3) == ZERO3;
  }

  /**
   Exactly when dropping the squared time step costs nothing to first order: no time passes, the
   bias-corrected rate is zero, or the quaternion is.
   */
  lemma DroppingIsHarmless(s: NominalState, meas: Imu, g: real, dt: real)
    ensures JacobiansSuffice(s, meas, g, dt)
       <==> dt == 0.0 || NominalInput(s, meas).gyro == ZERO3 || s.quat == NO_TURN
  {
    if dt == 0.0 || NominalInput(s, meas).gyro == ZERO3 || s.quat == NO_TURN {
      forall e, noise, i | 0 <= i < 15
        ensures HasSlopeAtZero(PredictedAlong(s, meas, g, dt, e, noise, i), JacobianSlope(s, meas, dt, e, noise, i))
      {
        PredictedSlope(s, meas, g, dt, e, noise, i);
        NothingMissing(s, meas, dt, e, noise, i);
      }
    }
    if JacobiansSuffice(s, meas, g, dt) {
      SufficeMeansZero(s, meas, g, dt);
    }
  }

  lemma SufficeMeansZero(s: NominalState, meas: Imu, g: real, dt: real)
    requires JacobiansSuffice(s, meas, g, dt)
    ensures dt == 0.0 || NominalInput(s, meas).gyro == ZERO3 || s.quat == NO_TURN
  {
    var e := NO_ERROR.(theta := Vector3(1.0, 0.0, 0.0));
    var n, gg := NormSquared(s.quat), Inner(NominalInput(s, meas).gyro, NominalInput(s, meas).gyro);
    var missing := dt * dt * (0.25 * (n * gg));
    assert missing == 0.0 by {
      TurnAloneFull(s, meas, g, dt, e, n, missing);
      SlopeIsUnique(PredictedAlong(s, meas, g, dt, e, NO_NOISE, 0), n, n + missing);
    }
    ZeroProduct(dt * dt, 0.25 * (n * gg));
    if dt * dt == 0.0 {
      ZeroProduct(dt, dt);
    } else {
      ZeroProduct(n, gg);
      if gg == 0.0 {
        ZeroRate(NominalInput(s, meas).gyro);
      } else {
        ZeroNorm(s.quat);
      }
    }
  }

  lemma TurnAloneSlope(s: NominalState, meas: Imu, dt: real, e: StateError)
    requires e == NO_ERROR.(theta := Vector3(1.0, 0.0, 0.0))
    ensures JacobianSlope(s, meas, dt, e, NO_NOISE, 0) == NormSquared(s.quat)
  {
    var h := HomogeneousRow(s.quat, 0);
    JacobianApplied(s, meas.accel, dt, e, NO_NOISE, 0);
    assert RateError(e, NO_NOISE) == ZERO3;
    assert Inner(h, ZERO3) == 0.0;
    assert Times(dt, 0.0) == 0.0 && Times(NormSquared(s.quat), 1.0) == NormSquared(s.quat);
  }

  /** The slope along a turn about the first axis. */
  lemma TurnAloneFull(s: NominalState, meas: Imu, g: real, dt: real, e: StateError, a: real, b: real)
    requires e == NO_ERROR.(theta := Vector3(1.0, 0.0, 0.0)) && a == NormSquared(s.quat)
    requires b == dt * dt
                  * (0.25 * (NormSquared(s.quat) * Inner(NominalInput(s, meas).gyro, NominalInput(s, meas).gyro)))
    ensures JacobianSlope(s, meas, dt, e, NO_NOISE, 0) == a
    ensures HasSlopeAtZero(PredictedAlong(s, meas, g, dt, e, NO_NOISE, 0), a + b)
  {
    TurnAloneSlope(s, meas, dt, e);
    TurnAlone(s, meas, dt, e);
    PredictedSlope(s, meas, g, dt, e, NO_NOISE, 0);
  }

  lemma UnitTurnNumbers(s: NominalState, meas: Imu, dt: real)
    requires s.quat == Quaternion(1.0, 0.0, 0.0, 0.0) && s.gyroBias == ZERO3 && meas.gyro == Vector3(2.0, 0.0, 0.0)
             && dt == 1.0
    ensures NormSquared(s.quat) == 1.0
    ensures dt * dt * (0.25 * (NormSquared(s.quat) * Inner(NominalInput(s, meas).gyro, NominalInput(s, meas).gyro)))
              == 1.0
  {
    assert NominalInput(s, meas).gyro == Vector3(2.0, 0.0, 0.0);
  }

  /**
   Where truncation halves the slope: a unit quaternion, no biases, a rate of two about the axis of
   the turn and a step of one.
   */
  lemma DroppingCanHalve(s: NominalState, meas: Imu, g: real, dt: real, e: StateError)
    requires s.quat == Quaternion(1.0, 0.0, 0.0, 0.0) && s.gyroBias == ZERO3 && meas.gyro == Vector3(2.0, 0.0, 0.0)
             && dt == 1.0
    requires e == NO_ERROR.(theta := Vector3(1.0, 0.0, 0.0))
    ensures JacobianSlope(s, meas, dt, e, NO_NOISE, 0) == 1.0
    ensures HasSlopeAtZero(PredictedAlong(s, meas, g, dt, e, NO_NOISE, 0), 2.0)
  {
    UnitTurnNumbers(s, meas, dt);
    TurnAloneFull(s, meas, g, dt, e, 1.0, 1.0);
  }
}
