/**
 The loops of the derivation script: the map from the 15 error states to the 16 stored states,
 through which measurement Jacobians are pulled back, and the removal of the lower triangle.
 */
module ChainRule {
  import opened Attitude
  import opened CovariancePrediction
  import opened CovarianceRuns
  import opened ErrorDynamics
  import opened LinearAlgebra
  import opened Magnetometer

  /** Component i of a quaternion in storage order (x, y, z, w). */
  function StorageAt(q: Quaternion, i: int): real {
    if i == 0 then q.x else if i == 1 then q.y else if i == 2 then q.z else q.w
  }

  function Axis(j: int): Vector3 {
    Vector3(if j == 0 then 1.0 else 0.0, if j == 1 then 1.0 else 0.0, if j == 2 then 1.0 else 0.0)
  }

  /** The change of stored state i per unit of error state j: half turns for the quaternion, the identity elsewhere. */
  function ErrorToStorage(q: Quaternion, i: int, j: int): real {
    if i < 4 then (if j < 3 then StorageAt(HalfTurn(Axis(j), q), i) else 0.0)
    else if j >= 3 && i == j + 1 then 1.0 else 0.0
  }

  /** Component i of a state in storage order. */
  function StoredAt(s: NominalState, i: int): real {
    if i < 4 then StorageAt(s.quat, i)
    else if i < 7 then At3(s.vel, i - 4)
    else if i < 10 then At3(s.pos, i - 7)
    else if i < 13 then At3(s.gyroBias, i - 10)
    else At3(s.accelBias, i - 13)
  }

  function AxisOf(t: real, first: int, j: int): Vector3 {
    if first <= j < first + 3 then Scale3(t, Axis(j - first)) else ZERO3
  }

  /** The error that is `t` in component j and zero elsewhere. */
  function AxisError(t: real, j: int): StateError {
    StateError(AxisOf(t, 0, j), AxisOf(t, 3, j), AxisOf(t, 6, j), AxisOf(t, 9, j), AxisOf(t, 12, j))
  }

  lemma NoTurn(q: Quaternion)
    ensures QMul(SmallRotation(ZERO3), q) == q
  {
    OneIsNeutral(q);
    assert SmallRotation(ZERO3) == Quaternion(1.0, 0.0, 0.0, 0.0);
  }

  lemma AxisEntry(t: real, first: int, j: int, k: int)
    requires 0 <= k < 3
    ensures At3(AxisOf(t, first, j), k) == if j == first + k then t else 0.0
  {
  }

  lemma QuaternionPart(s: NominalState, t: real, i: int, j: int)
    requires 0 <= i < 4 && 0 <= j < 15
    ensures StoredAt(TrueState(s, AxisError(t, j)), i) == Plus(StoredAt(s, i), t, ErrorToStorage(s.quat, i, j))
  {
    if j < 3 {
      SmallRotationMoves(t, Axis(j), s.quat);
      assert AxisError(t, j).theta == Scale3(t, Axis(j));
    } else {
      NoTurn(s.quat);
      assert AxisError(t, j).theta == ZERO3;
    }
  }

  lemma AddedAxis(v: Vector3, t: real, first: int, j: int, k: int)
    requires 0 <= k < 3
    ensures At3(Add3(v, AxisOf(t, first, j)), k) == Plus(At3(v, k), t, if j == first + k then 1.0 else 0.0)
  {
    AxisEntry(t, first, j, k);
  }

  lemma AddedPart(s: NominalState, t: real, i: int, j: int)
    requires 4 <= i < 16 && 0 <= j < 15
    ensures StoredAt(TrueState(s, AxisError(t, j)), i) == Plus(StoredAt(s, i), t, ErrorToStorage(s.quat, i, j))
  {
    if i < 7 {
      AddedAxis(s.vel, t, 3, j, i - 4);
    } else if i < 10 {
      AddedAxis(s.pos, t, 6, j, i - 7);
    } else if i < 13 {
      AddedAxis(s.gyroBias, t, 9, j, i - 10);
    } else {
      AddedAxis(s.accelBias, t, 12, j, i - 13);
    }
  }

  /** Along each error axis every stored component of the true state changes by exactly `t` times the map. */
  lemma MapIsDerivative(s: NominalState, t: real, i: int, j: int)
    requires 0 <= i < 16 && 0 <= j < 15
    ensures StoredAt(TrueState(s, AxisError(t, j)), i) == Plus(StoredAt(s, i), t, ErrorToStorage(s.quat, i, j))
  {
    if i < 4 {
      QuaternionPart(s, t, i, j);
    } else {
      AddedPart(s, t, i, j);
    }
  }

  function UnitStorage(i: int): Quaternion {
    Quaternion(
      if i == 3 then 1.0 else 0.0, if i == 0 then 1.0 else 0.0,
      if i == 1 then 1.0 else 0.0, if i == 2 then 1.0 else 0.0)
  }

  /** Entry (i, k) of the Jacobian of `p q` in the stored components of `p`. */
  function RightFactor(q: Quaternion, i: int, k: int): real {
    StorageAt(QMul(UnitStorage(k), q), i)
  }

  lemma RightFactorIsJacobian(p: Quaternion, q: Quaternion, s: real, i: int, k: int)
    ensures StorageAt(QMul(QPlus(p, s, UnitStorage(k)), q), i)
              == Plus(StorageAt(QMul(p, q), i), s, RightFactor(q, i, k))
  {
    QMulLeftLinear(p, s, UnitStorage(k), q);
  }

  /** The quaternion block of the map is half of the first three columns of that Jacobian. */
  lemma MapIsHalfRightFactor(q: Quaternion, i: int, j: int)
    requires 0 <= i < 4 && 0 <= j < 3
    ensures ErrorToStorage(q, i, j) == 0.5 * RightFactor(q, i, j)
  {
    var zero := Quaternion(0.0, 0.0, 0.0, 0.0);
    RightFactorIsJacobian(zero, q, 0.5, i, j);
    assert QMul(zero, q) == zero;
    assert WithVector(0.0, Scale3(0.5, Axis(j))) == QPlus(zero, 0.5, UnitStorage(j));
  }

  /** The 16-by-15 map, filled block by block. */
  method BuildErrorToStorage(q: Quaternion) returns (m: array2<real>)
    ensures fresh(m) && m.Length0 == 16 && m.Length1 == 15
    ensures forall i, j :: 0 <= i < 16 && 0 <= j < 15 ==> m[i, j] == ErrorToStorage(q, i, j)
  {
    m := new real[16, 15]((i, j) => 0.0);
    for i := 0 to 4
      invariant forall k, j :: 0 <= k < 16 && 0 <= j < 15 ==>
        m[k, j] == if k < i then ErrorToStorage(q, k, j) else 0.0
    {
      MapIsHalfRightFactor(q, i, 0);
      MapIsHalfRightFactor(q, i, 1);
      MapIsHalfRightFactor(q, i, 2);
      m[i, 0] := 0.5 * RightFactor(q, i, 0);
      m[i, 1] := 0.5 * RightFactor(q, i, 1);
      m[i, 2] := 0.5 * RightFactor(q, i, 2);
    }
    for i := 4 to 16
      invariant forall k, j :: 0 <= k < 16 && 0 <= j < 15 ==>
        m[k, j] == if k < i then ErrorToStorage(q, k, j) else 0.0
    {
      for j := 3 to 15
        invariant forall k, l :: 0 <= k < 16 && 0 <= l < 15 ==>
          m[k, l] == if k < i || (k == i && l < j) then ErrorToStorage(q, k, l) else 0.0
      {
        if i == j + 1 {
          m[i, j] := 1.0;
        }
      }
    }
  }

  /** The entries of an array as a matrix. */
  ghost predicate Holds(m: array2<real>, e: Mat)
    reads m
  {
    forall i, j :: 0 <= i < m.Length0 && 0 <= j < m.Length1 ==> m[i, j] == e(i, j)
  }

  /** Zeroes what lies below the diagonal and keeps the rest. */
  method ZeroLowerTriangle(m: array2<real>, ghost e: Mat)
    requires m.Length0 == m.Length1 && Holds(m, e)
    modifies m
    ensures Holds(m, UpperTriangle(e))
  {
    for i := 0 to m.Length0
      invariant forall k, l :: 0 <= k < m.Length0 && 0 <= l < m.Length0 ==>
        m[k, l] == if k < i && k > l then 0.0 else e(k, l)
    {
      for j := 0 to m.Length0
        invariant forall k, l :: 0 <= k < m.Length0 && 0 <= l < m.Length0 ==>
          m[k, l] == if k > l && (k < i || (k == i && l < j)) then 0.0 else e(k, l)
      {
        if i > j {
          m[i, j] := 0.0;
        }
      }
    }
  }

  /** From the exact product the script's last loops make the matrix the generated code returns. */
  method TriangularPrediction(m: array2<real>, ghost state: Vec, ghost P: Mat, ghost accel: Vec, ghost accelVar: Vec,
                              ghost gyro: Vec, ghost gyroVar: real, ghost dt: real)
    requires m.Length0 == 15 && m.Length1 == 15 && Holds(m, Exact(state, P, accel, accelVar, gyroVar, dt))
    modifies m
    ensures Holds(m, PredictCovariance(state, P, accel, accelVar, gyro, gyroVar, dt))
  {
    ZeroLowerTriangle(m, Exact(state, P, accel, accelVar, gyroVar, dt));
    PredictionIsTriangle(state, P, accel, accelVar, gyro, gyroVar, dt);
  }

  // The measurement Jacobian is the gradient over the stored quaternion times that map.

  function MixedColumn(q: Quaternion, p: Quaternion, j: int): Vector3 {
    Vector3(MixedRotation(q, p, 0, j), MixedRotation(q, p, 1, j), MixedRotation(q, p, 2, j))
  }

  /** The derivative of component j of `R' m` in stored quaternion component i. */
  function FieldGradient(q: Quaternion, m: Vector3, j: int, i: int): real {
    Inner(MixedColumn(q, UnitStorage(i), j), m)
  }

  function Combine(a: real, b: real, c: real, d: real, x: real, y: real, z: real, w: real): real {
    a * x + b * y + c * z + d * w
  }

  /** The mixed part is linear in the direction. */
  lemma MixedCombines(q: Quaternion, p: Quaternion, i: int, j: int)
    requires 0 <= i < 3 && 0 <= j < 3
    ensures MixedRotation(q, p, i, j)
         == Combine(MixedRotation(q, UnitStorage(0), i, j), MixedRotation(q, UnitStorage(1), i, j),
                    MixedRotation(q, UnitStorage(2), i, j), MixedRotation(q, UnitStorage(3), i, j), p.x, p.y, p.z, p.w)
  {
  }

  /** The gradient over all stored states; only the quaternion matters. */
  function StorageGradient(q: Quaternion, m: Vector3, j: int, i: int): real {
    if i < 4 then FieldGradient(q, m, j, i) else 0.0
  }

  /** The gradient is the linear part of the turned reference along each stored component. */
  lemma GradientIsDerivative(q: Quaternion, m: Vector3, j: int, i: int, s: real)
    requires 0 <= j < 3 && 0 <= i < 4
    ensures Inner(RotationColumn(QPlus(q, s, UnitStorage(i)), j), m)
         == Poly(Inner(RotationColumn(q, j), m), s, StorageGradient(q, m, j, i),
                 Inner(QuadraticColumn(UnitStorage(i), j), m))
  {
    var p := UnitStorage(i);
    RotationAlong(q, s, p, 0, j);
    RotationAlong(q, s, p, 1, j);
    RotationAlong(q, s, p, 2, j);
    var a, b, c := RotationColumn(q, j), MixedColumn(q, p, j), QuadraticColumn(p, j);
    PolyDot(s, a.x, a.y, a.z, b.x, b.y, b.z, c.x, c.y, c.z, m.x, m.y, m.z);
  }

  lemma CombineDot(u: Vector3, a: Vector3, b: Vector3, c: Vector3, d: Vector3, x: real, y: real, z: real, w: real)
    ensures Dot3(Combine(a.x, b.x, c.x, d.x, x, y, z, w), Combine(a.y, b.y, c.y, d.y, x, y, z, w),
                 Combine(a.z, b.z, c.z, d.z, x, y, z, w), u.x, u.y, u.z)
         == Combine(Inner(a, u), Inner(b, u), Inner(c, u), Inner(d, u), x, y, z, w)
  {
    calc {
      Dot3(Combine(a.x, b.x, c.x, d.x, x, y, z, w), Combine(a.y, b.y, c.y, d.y, x, y, z, w),
           Combine(a.z, b.z, c.z, d.z, x, y, z, w), u.x, u.y, u.z);
      (a.x * x + b.x * y + c.x * z + d.x * w) * u.x + (a.y * x + b.y * y + c.y * z + d.y * w) * u.y
        + (a.z * x + b.z * y + c.z * z + d.z * w) * u.z;
      (a.x * u.x + a.y * u.y + a.z * u.z) * x + (b.x * u.x + b.y * u.y + b.z * u.z) * y
        + (c.x * u.x + c.y * u.y + c.z * u.z) * z + (d.x * u.x + d.y * u.y + d.z * u.z) * w;
      Combine(a.x * u.x + a.y * u.y + a.z * u.z, b.x * u.x + b.y * u.y + b.z * u.z,
              c.x * u.x + c.y * u.y + c.z * u.z, d.x * u.x + d.y * u.y + d.z * u.z, x, y, z, w);
    }
  }

  /** Along any direction the change is the gradient combined with the direction. */
  lemma GradientAlong(q: Quaternion, p: Quaternion, m: Vector3, j: int)
    requires 0 <= j < 3
    ensures Inner(MixedColumn(q, p, j), m)
         == Combine(FieldGradient(q, m, j, 0), FieldGradient(q, m, j, 1),
                    FieldGradient(q, m, j, 2), FieldGradient(q, m, j, 3),
                    p.x, p.y, p.z, p.w)
  {
    MixedCombines(q, p, 0, j);
    MixedCombines(q, p, 1, j);
    MixedCombines(q, p, 2, j);
    CombineDot(m, MixedColumn(q, UnitStorage(0), j), MixedColumn(q, UnitStorage(1), j),
               MixedColumn(q, UnitStorage(2), j), MixedColumn(q, UnitStorage(3), j), p.x, p.y, p.z, p.w);
  }

  lemma InnerAxis(u: Vector3, k: int)
    requires 0 <= k < 3
    ensures Inner(u, Axis(k)) == At3(u, k)
  {
  }

  /** The gradient pulled back along an attitude axis is an entry of the cross product. */
  lemma PulledBack(q: Quaternion, m: Vector3, j: int, k: int)
    requires 0 <= j < 3 && 0 <= k < 3
    ensures Inner(MixedColumn(q, HalfTurn(Axis(k), q), j), m) == At3(Cross(HomogeneousColumn(q, j), m), k)
  {
    RotationDerivative(q, Axis(k), 0, j);
    RotationDerivative(q, Axis(k), 1, j);
    RotationDerivative(q, Axis(k), 2, j);
    assert MixedColumn(q, HalfTurn(Axis(k), q), j) == Cross(Axis(k), HomogeneousColumn(q, j));
    TripleProduct(Axis(k), HomogeneousColumn(q, j), m);
    InnerAxis(Cross(HomogeneousColumn(q, j), m), k);
  }

  lemma Sum16(f: Vec)
    requires forall i :: 4 <= i < 16 ==> f(i) == 0.0
    ensures Sum(16, f) == f(0) + f(1) + f(2) + f(3)
  {
    SumZeroTail(4, 16, f);
    assert Sum(2, f) == f(0) + f(1);
    assert Sum(4, f) == Sum(2, f) + f(2) + f(3);
  }

  ghost function ChainTerms(q: Quaternion, m: Vector3, j: int, k: int): Vec {
    i => Times(StorageGradient(q, m, j, i), ErrorToStorage(q, i, k))
  }

  lemma ChainTermsAt(q: Quaternion, m: Vector3, j: int, k: int, i: int)
    ensures ChainTerms(q, m, j, k)(i) == Times(StorageGradient(q, m, j, i), ErrorToStorage(q, i, k))
  {
  }

  lemma CombineIsSum(a: real, b: real, c: real, d: real, x: real, y: real, z: real, w: real)
    ensures Times(a, x) + Times(b, y) + Times(c, z) + Times(d, w) == Combine(a, b, c, d, x, y, z, w)
    ensures Combine(a, b, c, d, 0.0, 0.0, 0.0, 0.0) == 0.0
  {
  }

  lemma ChainTermsSum(q: Quaternion, m: Vector3, j: int, k: int)
    requires 0 <= j < 3 && 0 <= k < 15
    ensures Sum(16, ChainTerms(q, m, j, k))
         == Combine(FieldGradient(q, m, j, 0), FieldGradient(q, m, j, 1),
                    FieldGradient(q, m, j, 2), FieldGradient(q, m, j, 3),
                    ErrorToStorage(q, 0, k), ErrorToStorage(q, 1, k), ErrorToStorage(q, 2, k), ErrorToStorage(q, 3, k))
  {
    var f := ChainTerms(q, m, j, k);
    forall i | 4 <= i < 16
      ensures f(i) == 0.0
    {
      ChainTermsAt(q, m, j, k, i);
    }
    Sum16(f);
    ChainTermsAt(q, m, j, k, 0);
    ChainTermsAt(q, m, j, k, 1);
    ChainTermsAt(q, m, j, k, 2);
    ChainTermsAt(q, m, j, k, 3);
    CombineIsSum(FieldGradient(q, m, j, 0), FieldGradient(q, m, j, 1),
                 FieldGradient(q, m, j, 2), FieldGradient(q, m, j, 3),
                 ErrorToStorage(q, 0, k), ErrorToStorage(q, 1, k), ErrorToStorage(q, 2, k), ErrorToStorage(q, 3, k));
  }

  lemma ChainSum(q: Quaternion, m: Vector3, j: int, k: int)
    requires 0 <= j < 3 && 0 <= k < 15
    ensures Sum(16, ChainTerms(q, m, j, k)) == FullRow(Cross(HomogeneousColumn(q, j), m))(k)
  {
    ChainTermsSum(q, m, j, k);
    if k < 3 {
      GradientAlong(q, HalfTurn(Axis(k), q), m, j);
      PulledBack(q, m, j, k);
    } else {
      CombineIsSum(FieldGradient(q, m, j, 0), FieldGradient(q, m, j, 1),
                   FieldGradient(q, m, j, 2), FieldGradient(q, m, j, 3),
                   0.0, 0.0, 0.0, 0.0);
    }
  }

  /**
   Every entry of every row the generated function returns is the gradient of the predicted
   measurement over the 16 stored states times the column of the error map.
   */
  lemma RowsAreChainRule(state: Vec, P: Mat, meas: Vec, magRef: Vec, R: real, j: int, k: int)
    requires 0 <= j < 3 && 0 <= k < 15
    ensures OutputRow(ComputeMagInnovVarAndH(state, P, meas, magRef, R), j)(k)
         == Sum(16, ChainTerms(VStateToState(state).quat, Vector(magRef), j, k))
  {
    OutputRowIs(state, P, meas, magRef, R, j);
    ChainSum(VStateToState(state).quat, Vector(magRef), j, k);
  }
}
