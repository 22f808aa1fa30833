/**
 The generated magnetometer update: innovation, its variance and the three rows of the Jacobian.
 A field or variable `t30` is the temporary numbered 30.
 */
module Magnetometer {
  import opened Attitude
  import opened CovarianceRuns
  import opened ErrorDynamics
  import opened LinearAlgebra
  import opened Reals

  /** Half or whole partial derivatives of the predicted measurement, as the code shares them. */
  datatype Partials = Partials(
    t16: real, t21: real, t25: real, t28: real, t36: real, t39: real, t41: real, t43: real,
    t50: real, t51: real, t53: real, t54: real)

  function MagPartials(state: Vec, magRef: Vec): Partials {
    var t2 := 2.0 * state(1);
    var t11 := 4.0 * magRef(0);
    var t12 := 2.0 * magRef(2);
    var t13 := t12 * state(0);
    var t14 := magRef(1) * state(1);
    var t15 := 2.0 * t14;
    var t16 := -t11 * state(2) - t13 + t15;
    var t18 := t2 * magRef(2);
    var t19 := 2.0 * magRef(1);
    var t20 := t19 * state(0);
    var t21 := -t11 * state(3) + t18 + t20;
    var t23 := t12 * state(2);
    var t24 := t19 * state(3);
    var t25 := -0.5 * t23 + 0.5 * t24;
    var t26 := t12 * state(3);
    var t27 := t19 * state(2);
    var t28 := t26 + t27;
    var t34 := 2.0 * magRef(0);
    var t35 := t34 * state(0);
    var t36 := t23 - t35 - 4.0 * magRef(1) * state(3);
    var t38 := t34 * state(2);
    var t39 := t13 - 4.0 * t14 + t38;
    var t40 := t34 * state(3);
    var t41 := 0.5 * t18 - 0.5 * t40;
    var t42 := t2 * magRef(0);
    var t43 := t26 + t42;
    var t49 := 4.0 * magRef(2);
    var t50 := t24 + t35 - t49 * state(2);
    var t51 := -t20 + t40 - t49 * state(1);
    var t53 := -0.5 * t15 + 0.5 * t38;
    var t54 := 0.5 * t27 + 0.5 * t42;
    Partials(t16, t21, t25, t28, t36, t39, t41, t43, t50, t51, t53, t54)
  }

  /** The three non-zero entries of each row. */
  datatype Rows = Rows(x: Vector3, y: Vector3, z: Vector3)

  function MagRows(state: Vec, p: Partials): Rows {
    var t17 := 0.5 * p.t16;
    var t22 := 0.5 * state(0);
    var t29 := 0.5 * p.t28;
    var t30 := t17 * state(1) + p.t21 * t22 - p.t25 * state(3) - t29 * state(2);
    var t31 := 0.5 * p.t21;
    var t32 := -t17 * state(3) + t22 * p.t28 - p.t25 * state(1) + t31 * state(2);
    var t33 := p.t16 * t22 - p.t25 * state(2) + t29 * state(3) - t31 * state(1);
    var t37 := 0.5 * p.t36;
    var t44 := 0.5 * p.t43;
    var t45 := t22 * p.t39 + t37 * state(2) - p.t41 * state(1) - t44 * state(3);
    var t46 := 0.5 * p.t39;
    var t47 := t22 * p.t43 - t37 * state(1) - p.t41 * state(2) + t46 * state(3);
    var t48 := t22 * p.t36 - p.t41 * state(3) + t44 * state(1) - t46 * state(2);
    var t52 := 0.5 * p.t51;
    var t55 := t22 * p.t50 + t52 * state(3) - p.t53 * state(2) - p.t54 * state(1);
    var t56 := 0.5 * p.t50;
    var t57 := -t52 * state(2) - p.t53 * state(3) + p.t54 * state(0) + t56 * state(1);
    var t58 := t22 * p.t51 - p.t53 * state(1) + p.t54 * state(2) - t56 * state(3);
    Rows(Vector3(t32, t33, t30), Vector3(t45, t47, t48), Vector3(t58, t55, t57))
  }

  datatype FieldTerms = FieldTerms(t0: real, t1: real, t3: real, t4: real, t5: real, t7: real, t8: real, t9: real,
                                   t10: real)

  function MagFieldTerms(state: Vec): FieldTerms {
    var t0 := -2.0 * Sq(state(2));
    var t1 := 1.0 - 2.0 * Sq(state(3));
    var t2 := 2.0 * state(1);
    var t3 := t2 * state(2);
    var t4 := 2.0 * state(0) * state(3);
    var t5 := t2 * state(3);
    var t6 := 2.0 * state(2);
    var t7 := t6 * state(0);
    var t8 := -2.0 * Sq(state(1));
    var t9 := t6 * state(3);
    var t10 := t2 * state(0);
    FieldTerms(t0, t1, t3, t4, t5, t7, t8, t9, t10)
  }

  function Innovation(f: FieldTerms, meas: Vec, magRef: Vec): Vector3 {
    Vector3(
      magRef(0) * (f.t0 + f.t1) + magRef(1) * (f.t3 + f.t4) + magRef(2) * (f.t5 - f.t7) - meas(0),
      magRef(0) * (f.t3 - f.t4) + magRef(1) * (f.t1 + f.t8) + magRef(2) * (f.t10 + f.t9) - meas(1),
      magRef(0) * (f.t5 + f.t7) + magRef(1) * (-f.t10 + f.t9) + magRef(2) * (f.t0 + f.t8 + 1.0) - meas(2))
  }

  // The three variances, each from the row it belongs to.

  function VarianceX(P: Mat, t32: real, t33: real, t30: real, R: real): real {
    R + t30 * (P(0, 2) * t32 + P(1, 2) * t33 + P(2, 2) * t30)
      + t32 * (P(0, 0) * t32 + P(1, 0) * t33 + P(2, 0) * t30)
      + t33 * (P(0, 1) * t32 + P(1, 1) * t33 + P(2, 1) * t30)
  }

  function VarianceY(P: Mat, t45: real, t47: real, t48: real, R: real): real {
    R + t45 * (P(0, 0) * t45 + P(1, 0) * t47 + P(2, 0) * t48)
      + t47 * (P(0, 1) * t45 + P(1, 1) * t47 + P(2, 1) * t48)
      + t48 * (P(0, 2) * t45 + P(1, 2) * t47 + P(2, 2) * t48)
  }

  function VarianceZ(P: Mat, t58: real, t55: real, t57: real, R: real): real {
    R + t55 * (P(0, 1) * t58 + P(1, 1) * t55 + P(2, 1) * t57)
      + t57 * (P(0, 2) * t58 + P(1, 2) * t55 + P(2, 2) * t57)
      + t58 * (P(0, 0) * t58 + P(1, 0) * t55 + P(2, 0) * t57)
  }

  function InnovationVariance(P: Mat, h: Rows, R: real): Vector3 {
    Vector3(
      VarianceX(P, h.x.x, h.x.y, h.x.z, R),
      VarianceY(P, h.y.x, h.y.y, h.y.z, R),
      VarianceZ(P, h.z.x, h.z.y, h.z.z, R))
  }

  /** A row of the Jacobian over the 15 error states: zero past the attitude. */
  function FullRow(h: Vector3): Vec {
    i => if i == 0 then h.x else if i == 1 then h.y else if i == 2 then h.z else 0.0
  }

  datatype MagUpdate = MagUpdate(innov: Vector3, innovVar: Vector3, hx: Vec, hy: Vec, hz: Vec)

  /** All five outputs. */
  function ComputeMagInnovVarAndH(state: Vec, P: Mat, meas: Vec, magRef: Vec, R: real): MagUpdate {
    var h := MagRows(state, MagPartials(state, magRef));
    MagUpdate(Innovation(MagFieldTerms(state), meas, magRef), InnovationVariance(P, h, R),
              FullRow(h.x), FullRow(h.y), FullRow(h.z))
  }

  // Each row is the cross product of a column of the homogeneous rotation matrix with the reference.

  /** The partial derivatives of `(1 - 2yy - 2zz) a + (2xy + 2wz) b + (2xz - 2wy) c` in y, z, w (half) and x. */
  ghost predicate ArePartials(w: real, x: real, y: real, z: real, a: real, b: real, c: real,
                              t16: real, t21: real, t25: real, t28: real) {
    && t16 == -(4.0 * a) * y - 2.0 * c * w + 2.0 * (b * x) && t21 == -(4.0 * a) * z + 2.0 * x * c + 2.0 * b * w
    && t25 == -0.5 * (2.0 * c * y) + 0.5 * (2.0 * b * z) && t28 == 2.0 * c * z + 2.0 * b * y
  }

  lemma FirstIdentity(w: real, x: real, y: real, z: real, a: real, b: real, c: real)
    ensures -(0.5 * (-(4.0 * a) * y - 2.0 * c * w + 2.0 * (b * x))) * z + 0.5 * w * (2.0 * c * z + 2.0 * b * y)
              - (-0.5 * (2.0 * c * y) + 0.5 * (2.0 * b * z)) * x
              + 0.5 * (-(4.0 * a) * z + 2.0 * x * c + 2.0 * b * w) * y
         == (2.0 * (x * y) + 2.0 * (w * z)) * c - (2.0 * (z * x) - 2.0 * (w * y)) * b
  {
  }

  lemma RowEntryFirst(w: real, x: real, y: real, z: real, a: real, b: real, c: real, t16: real, t21: real, t25: real,
                      t28: real)
    requires ArePartials(w, x, y, z, a, b, c, t16, t21, t25, t28)
    ensures -(0.5 * t16) * z + 0.5 * w * t28 - t25 * x + 0.5 * t21 * y
              == Minor(Lower(x, y, w, z), Upper(z, x, w, y), b, c)
  {
    FirstIdentity(w, x, y, z, a, b, c);
    assert Minor(Lower(x, y, w, z), Upper(z, x, w, y), b, c)
        == (2.0 * (x * y) + 2.0 * (w * z)) * c - (2.0 * (z * x) - 2.0 * (w * y)) * b;
  }

  lemma SecondIdentity(w: real, x: real, y: real, z: real, a: real, b: real, c: real)
    ensures (-(4.0 * a) * y - 2.0 * c * w + 2.0 * (b * x)) * (0.5 * w)
              - (-0.5 * (2.0 * c * y) + 0.5 * (2.0 * b * z)) * y + 0.5 * (2.0 * c * z + 2.0 * b * y) * z
              - 0.5 * (-(4.0 * a) * z + 2.0 * x * c + 2.0 * b * w) * x
         == (2.0 * (z * x) - 2.0 * (w * y)) * a - (w * w + x * x - y * y - z * z) * c
  {
  }

  lemma RowEntrySecond(w: real, x: real, y: real, z: real, a: real, b: real, c: real, t16: real, t21: real, t25: real,
                       t28: real)
    requires ArePartials(w, x, y, z, a, b, c, t16, t21, t25, t28)
    ensures t16 * (0.5 * w) - t25 * y + 0.5 * t28 * z - 0.5 * t21 * x
              == Minor(Upper(z, x, w, y), HomogeneousDiagonal(w, x, y, z), c, a)
  {
    SecondIdentity(w, x, y, z, a, b, c);
    assert Minor(Upper(z, x, w, y), HomogeneousDiagonal(w, x, y, z), c, a)
        == (2.0 * (z * x) - 2.0 * (w * y)) * a - (w * w + x * x - y * y - z * z) * c;
  }

  lemma ThirdIdentity(w: real, x: real, y: real, z: real, a: real, b: real, c: real)
    ensures 0.5 * (-(4.0 * a) * y - 2.0 * c * w + 2.0 * (b * x)) * x
              + (-(4.0 * a) * z + 2.0 * x * c + 2.0 * b * w) * (0.5 * w)
              - (-0.5 * (2.0 * c * y) + 0.5 * (2.0 * b * z)) * z - 0.5 * (2.0 * c * z + 2.0 * b * y) * y
         == (w * w + x * x - y * y - z * z) * b - (2.0 * (x * y) + 2.0 * (w * z)) * a
  {
  }

  lemma RowEntryThird(w: real, x: real, y: real, z: real, a: real, b: real, c: real, t16: real, t21: real, t25: real,
                      t28: real)
    requires ArePartials(w, x, y, z, a, b, c, t16, t21, t25, t28)
    ensures 0.5 * t16 * x + t21 * (0.5 * w) - t25 * z - 0.5 * t28 * y
              == Minor(HomogeneousDiagonal(w, x, y, z), Lower(x, y, w, z), a, b)
  {
    ThirdIdentity(w, x, y, z, a, b, c);
    assert Minor(HomogeneousDiagonal(w, x, y, z), Lower(x, y, w, z), a, b)
        == (w * w + x * x - y * y - z * z) * b - (2.0 * (x * y) + 2.0 * (w * z)) * a;
  }

  lemma RowEntries(w: real, x: real, y: real, z: real, a: real, b: real, c: real, t16: real, t21: real, t25: real,
                   t28: real)
    requires ArePartials(w, x, y, z, a, b, c, t16, t21, t25, t28)
    ensures -(0.5 * t16) * z + 0.5 * w * t28 - t25 * x + 0.5 * t21 * y
              == Minor(Lower(x, y, w, z), Upper(z, x, w, y), b, c)
    ensures t16 * (0.5 * w) - t25 * y + 0.5 * t28 * z - 0.5 * t21 * x
              == Minor(Upper(z, x, w, y), HomogeneousDiagonal(w, x, y, z), c, a)
    ensures 0.5 * t16 * x + t21 * (0.5 * w) - t25 * z - 0.5 * t28 * y
              == Minor(HomogeneousDiagonal(w, x, y, z), Lower(x, y, w, z), a, b)
  {
    RowEntryFirst(w, x, y, z, a, b, c, t16, t21, t25, t28);
    RowEntrySecond(w, x, y, z, a, b, c, t16, t21, t25, t28);
    RowEntryThird(w, x, y, z, a, b, c, t16, t21, t25, t28);
  }

  lemma RowX(state: Vec, magRef: Vec, p: Partials)
    requires ArePartials(state(0), state(1), state(2), state(3), magRef(0), magRef(1), magRef(2), p.t16, p.t21, p.t25,
                         p.t28)
    ensures MagRows(state, p).x == Cross(HomogeneousColumn(VStateToState(state).quat, 0), Vector(magRef))
  {
    RowEntries(state(0), state(1), state(2), state(3), magRef(0), magRef(1), magRef(2), p.t16, p.t21, p.t25, p.t28);
  }

  lemma RowY(state: Vec, magRef: Vec, p: Partials)
    requires ArePartials(state(0), state(2), state(3), state(1), magRef(1), magRef(2), magRef(0), p.t36, p.t39, p.t41,
                         p.t43)
    ensures MagRows(state, p).y == Cross(HomogeneousColumn(VStateToState(state).quat, 1), Vector(magRef))
  {
    RowEntries(state(0), state(2), state(3), state(1), magRef(1), magRef(2), magRef(0), p.t36, p.t39, p.t41, p.t43);
  }

  lemma RowZ(state: Vec, magRef: Vec, p: Partials)
    requires ArePartials(state(0), state(3), state(1), state(2), magRef(2), magRef(0), magRef(1), p.t51, p.t50, p.t53,
                         2.0 * p.t54)
    ensures MagRows(state, p).z == Cross(HomogeneousColumn(VStateToState(state).quat, 2), Vector(magRef))
  {
    RowEntries(state(0), state(3), state(1), state(2), magRef(2), magRef(0), magRef(1), p.t51, p.t50, p.t53,
               2.0 * p.t54);
  }

  lemma RowsOfTerms(state: Vec, magRef: Vec)
    ensures var h, q, m := MagRows(state, MagPartials(state, magRef)), VStateToState(state).quat, Vector(magRef);
            && h.x == Cross(HomogeneousColumn(q, 0), m)
            && h.y == Cross(HomogeneousColumn(q, 1), m)
            && h.z == Cross(HomogeneousColumn(q, 2), m)
  {
    var p := MagPartials(state, magRef);
    assert ArePartials(state(0), state(1), state(2), state(3), magRef(0), magRef(1), magRef(2), p.t16, p.t21, p.t25,
                       p.t28);
    RowX(state, magRef, p);
    assert ArePartials(state(0), state(2), state(3), state(1), magRef(1), magRef(2), magRef(0), p.t36, p.t39, p.t41,
                       p.t43);
    RowY(state, magRef, p);
    assert ArePartials(state(0), state(3), state(1), state(2), magRef(2), magRef(0), magRef(1), p.t51, p.t50, p.t53,
                       2.0 * p.t54);
    RowZ(state, magRef, p);
  }

  /** A row over the 15 error states whose entries for the attitude are `v`, and 0 elsewhere. */
  ghost predicate IsRow(h: Vec, v: Vector3) {
    Vector(h) == v && forall k :: 3 <= k < 15 ==> h(k) == 0.0
  }

  /** The rows returned are `column j of R x magRef`: the rows of `R' [magRef]x`. */
  lemma RowsAreCrossProducts(state: Vec, P: Mat, meas: Vec, magRef: Vec, R: real)
    ensures var u := ComputeMagInnovVarAndH(state, P, meas, magRef, R);
            var q, m := VStateToState(state).quat, Vector(magRef);
            && IsRow(u.hx, Cross(HomogeneousColumn(q, 0), m))
            && IsRow(u.hy, Cross(HomogeneousColumn(q, 1), m))
            && IsRow(u.hz, Cross(HomogeneousColumn(q, 2), m))
  {
    RowsOfTerms(state, magRef);
  }

  // The innovation is the reference turned into the body frame, minus the measurement.

  function RotationColumn(q: Quaternion, j: int): Vector3 {
    Vector3(Rotation(q, 0, j), Rotation(q, 1, j), Rotation(q, 2, j))
  }

  /** `R' m` */
  function RotateBack(q: Quaternion, m: Vector3): Vector3 {
    Vector3(Inner(RotationColumn(q, 0), m), Inner(RotationColumn(q, 1), m), Inner(RotationColumn(q, 2), m))
  }

  /** The sums the code multiplies are the columns of the rotation matrix. */
  ghost predicate AreColumns(f: FieldTerms, c0: Vector3, c1: Vector3, c2: Vector3) {
    && f.t0 + f.t1 == c0.x && f.t3 + f.t4 == c0.y && f.t5 - f.t7 == c0.z
    && f.t3 - f.t4 == c1.x && f.t1 + f.t8 == c1.y && f.t10 + f.t9 == c1.z
    && f.t5 + f.t7 == c2.x && -f.t10 + f.t9 == c2.y && f.t0 + f.t8 + 1.0 == c2.z
  }

  lemma FieldTermsAreRotation(state: Vec, q: Quaternion)
    requires q == VStateToState(state).quat
    ensures AreColumns(MagFieldTerms(state), RotationColumn(q, 0), RotationColumn(q, 1), RotationColumn(q, 2))
  {
    var f := MagFieldTerms(state);
    assert f.t0 + f.t1 == UnitDiagonal(q.y, q.z) && f.t1 + f.t8 == UnitDiagonal(q.z, q.x)
           && f.t0 + f.t8 + 1.0 == UnitDiagonal(q.x, q.y);
    assert f.t3 + f.t4 == Lower(q.x, q.y, q.w, q.z) && f.t3 - f.t4 == Upper(q.x, q.y, q.w, q.z);
    assert f.t5 - f.t7 == Upper(q.z, q.x, q.w, q.y) && f.t5 + f.t7 == Lower(q.z, q.x, q.w, q.y);
    assert f.t10 + f.t9 == Lower(q.y, q.z, q.w, q.x) && -f.t10 + f.t9 == Upper(q.y, q.z, q.w, q.x);
  }

  lemma InnovationEntry(a: real, b: real, c: real, u: real, v: real, w: real, x: real, y: real, z: real)
    requires u == x && v == y && w == z
    ensures a * u + b * v + c * w == Dot3(x, y, z, a, b, c)
  {
  }

  lemma InnovationOf(f: FieldTerms, c0: Vector3, c1: Vector3, c2: Vector3, meas: Vec, magRef: Vec)
    requires AreColumns(f, c0, c1, c2)
    ensures var m := Vector(magRef);
            Innovation(f, meas, magRef) == Sub3(Vector3(Inner(c0, m), Inner(c1, m), Inner(c2, m)), Vector(meas))
  {
    var m := Vector(magRef);
    InnovationEntry(m.x, m.y, m.z, f.t0 + f.t1, f.t3 + f.t4, f.t5 - f.t7, c0.x, c0.y, c0.z);
    InnovationEntry(m.x, m.y, m.z, f.t3 - f.t4, f.t1 + f.t8, f.t10 + f.t9, c1.x, c1.y, c1.z);
    InnovationEntry(m.x, m.y, m.z, f.t5 + f.t7, -f.t10 + f.t9, f.t0 + f.t8 + 1.0, c2.x, c2.y, c2.z);
  }

  lemma InnovationOfTerms(state: Vec, meas: Vec, magRef: Vec)
    ensures Innovation(MagFieldTerms(state), meas, magRef)
         == Sub3(RotateBack(VStateToState(state).quat, Vector(magRef)), Vector(meas))
  {
    var q := VStateToState(state).quat;
    FieldTermsAreRotation(state, q);
    InnovationOf(MagFieldTerms(state), RotationColumn(q, 0), RotationColumn(q, 1), RotationColumn(q, 2), meas, magRef);
  }

  /** For every state the innovation returned is `R' m - meas`. */
  lemma InnovationIsRotated(state: Vec, P: Mat, meas: Vec, magRef: Vec, R: real)
    ensures ComputeMagInnovVarAndH(state, P, meas, magRef, R).innov
         == Sub3(RotateBack(VStateToState(state).quat, Vector(magRef)), Vector(meas))
  {
    InnovationOfTerms(state, meas, magRef);
  }

  // The rows are the exact derivative of the innovation along the attitude error.

  lemma TripleProductReals(a: real, b: real, c: real, p: real, q: real, r: real, x: real, y: real, z: real)
    ensures Dot3(Minor(b, c, q, r), Minor(c, a, r, p), Minor(a, b, p, q), x, y, z)
         == Dot3(Minor(q, r, y, z), Minor(r, p, z, x), Minor(p, q, x, y), a, b, c)
  {
    calc {
      Dot3(b * r - c * q, c * p - a * r, a * q - b * p, x, y, z);
      (b * r - c * q) * x + (c * p - a * r) * y + (a * q - b * p) * z;
      (q * z - r * y) * a + (r * x - p * z) * b + (p * y - q * x) * c;
      Dot3(q * z - r * y, r * x - p * z, p * y - q * x, a, b, c);
    }
  }

  lemma TripleProduct(v: Vector3, c: Vector3, m: Vector3)
    ensures Inner(Cross(v, c), m) == Inner(Cross(c, m), v)
  {
    TripleProductReals(v.x, v.y, v.z, c.x, c.y, c.z, m.x, m.y, m.z);
  }

  function QuadraticColumn(p: Quaternion, j: int): Vector3 {
    Vector3(QuadraticRotation(p, 0, j), QuadraticRotation(p, 1, j), QuadraticRotation(p, 2, j))
  }

  lemma PolyDot(s: real, a: real, b: real, c: real, k: real, l: real, m: real, p: real, q: real, r: real, x: real,
                y: real, z: real)
    ensures Dot3(Poly(a, s, k, p), Poly(b, s, l, q), Poly(c, s, m, r), x, y, z)
         == Poly(Dot3(a, b, c, x, y, z), s, Dot3(k, l, m, x, y, z), Dot3(p, q, r, x, y, z))
  {
    calc {
      Dot3(a + s * k + s * s * p, b + s * l + s * s * q, c + s * m + s * s * r, x, y, z);
      (a + s * k + s * s * p) * x + (b + s * l + s * s * q) * y + (c + s * m + s * s * r) * z;
      (a * x + b * y + c * z) + s * (k * x + l * y + m * z) + s * s * (p * x + q * y + r * z);
      Poly(a * x + b * y + c * z, s, k * x + l * y + m * z, p * x + q * y + r * z);
    }
  }

  /** Component j of the turned reference along a line of quaternions. */
  lemma FieldAlong(q: Quaternion, s: real, theta: Vector3, p: Quaternion, m: Vector3, j: int)
    requires 0 <= j < 3 && p == HalfTurn(theta, q)
    ensures Inner(RotationColumn(QPlus(q, s, p), j), m)
         == Poly(Inner(RotationColumn(q, j), m), s, Inner(Cross(HomogeneousColumn(q, j), m), theta),
                 Inner(QuadraticColumn(p, j), m))
  {
    RotationAlong(q, s, p, 0, j);
    RotationAlong(q, s, p, 1, j);
    RotationAlong(q, s, p, 2, j);
    RotationDerivative(q, theta, 0, j);
    RotationDerivative(q, theta, 1, j);
    RotationDerivative(q, theta, 2, j);
    var a, b, c := RotationColumn(q, j), Cross(theta, HomogeneousColumn(q, j)), QuadraticColumn(p, j);
    PolyDot(s, a.x, a.y, a.z, b.x, b.y, b.z, c.x, c.y, c.z, m.x, m.y, m.z);
    TripleProduct(theta, HomogeneousColumn(q, j), m);
  }

  /** Row j of the Jacobian, as returned. */
  function OutputRow(u: MagUpdate, j: int): Vec {
    if j == 0 then u.hx else if j == 1 then u.hy else u.hz
  }

  lemma OutputRowIs(state: Vec, P: Mat, meas: Vec, magRef: Vec, R: real, j: int)
    requires 0 <= j < 3
    ensures IsRow(OutputRow(ComputeMagInnovVarAndH(state, P, meas, magRef, R), j),
                  Cross(HomogeneousColumn(VStateToState(state).quat, j), Vector(magRef)))
  {
    RowsAreCrossProducts(state, P, meas, magRef, R);
  }

  /** The reference in the body frame for quaternion `q`, minus the measurement, component j. */
  function InnovationAt(q: Quaternion, meas: Vec, magRef: Vec, j: int): real {
    At3(Sub3(RotateBack(q, Vector(magRef)), Vector(meas)), j)
  }

  lemma PolyShift(a: real, s: real, b: real, c: real, d: real)
    ensures Minus(Poly(a, s, b, c), d) == Poly(Minus(a, d), s, b, c)
  {
  }

  /**
   For every state and every turn `s * theta` of the attitude on the left, each component of the
   innovation changes by exactly `s * (H . theta)` plus a part that is quadratic in the turn:
   the rows the code returns are the derivative, with no condition on the quaternion.
   */
  lemma RowsAreDerivative(state: Vec, P: Mat, meas: Vec, magRef: Vec, R: real, theta: Vector3, s: real, j: int)
    requires 0 <= j < 3
    ensures var u := ComputeMagInnovVarAndH(state, P, meas, magRef, R);
            InnovationAt(QMul(SmallRotation(Scale3(s, theta)), VStateToState(state).quat), meas, magRef, j)
              == Poly(At3(u.innov, j), s, Inner(Vector(OutputRow(u, j)), theta),
                      Inner(QuadraticColumn(HalfTurn(theta, VStateToState(state).quat), j), Vector(magRef)))
  {
    var q, m := VStateToState(state).quat, Vector(magRef);
    SmallRotationMoves(s, theta, q);
    FieldAlong(q, s, theta, HalfTurn(theta, q), m, j);
    InnovationIsRotated(state, P, meas, magRef, R);
    OutputRowIs(state, P, meas, magRef, R, j);
    PolyShift(Inner(RotationColumn(q, j), m), s, Inner(Cross(HomogeneousColumn(q, j), m), theta),
              Inner(QuadraticColumn(HalfTurn(theta, q), j), m), At3(Vector(meas), j));
  }

  /** The remainder really is quadratic: scaling the turn scales it by the square. */
  lemma RemainderIsQuadratic(q: Quaternion, theta: Vector3, s: real, i: int, j: int)
    requires 0 <= i < 3 && 0 <= j < 3
    ensures QuadraticRotation(HalfTurn(Scale3(s, theta), q), i, j)
              == s * s * QuadraticRotation(HalfTurn(theta, q), i, j)
  {
    var zero := Quaternion(0.0, 0.0, 0.0, 0.0);
    var h := WithVector(0.0, Scale3(0.5, theta));
    QMulLeftLinear(zero, s, h, q);
    assert QMul(zero, q) == zero;
    assert WithVector(0.0, Scale3(0.5, Scale3(s, theta))) == QPlus(zero, s, h);
    RotationAlong(zero, s, HalfTurn(theta, q), i, j);
    assert MixedRotation(zero, HalfTurn(theta, q), i, j) == 0.0;
  }

  // Lengths and angles.

  /** Each row is orthogonal to the reference, for every state. */
  lemma RowsAreOrthogonal(state: Vec, P: Mat, meas: Vec, magRef: Vec, R: real, j: int)
    requires 0 <= j < 3
    ensures Inner(Vector(OutputRow(ComputeMagInnovVarAndH(state, P, meas, magRef, R), j)), Vector(magRef)) == 0.0
  {
    var c, m := HomogeneousColumn(VStateToState(state).quat, j), Vector(magRef);
    OutputRowIs(state, P, meas, magRef, R, j);
    TripleProduct(m, c, m);
    CrossSelf(m.x, m.y, m.z, c.x, c.y, c.z);
  }

  lemma CrossSelf(a: real, b: real, c: real, p: real, q: real, r: real)
    ensures Dot3(Minor(q, r, b, c), Minor(r, p, c, a), Minor(p, q, a, b), a, b, c) == 0.0
  {
    calc {
      Dot3(q * c - r * b, r * a - p * c, p * b - q * a, a, b, c);
      (q * c - r * b) * a + (r * a - p * c) * b + (p * b - q * a) * c;
      0.0;
    }
  }

  lemma Lagrange(a: real, b: real, c: real, p: real, q: real, r: real)
    ensures Dot3(Minor(b, c, q, r), Minor(c, a, r, p), Minor(a, b, p, q), Minor(b, c, q, r), Minor(c, a, r, p),
                 Minor(a, b, p, q))
         == Dot3(a, b, c, a, b, c) * Dot3(p, q, r, p, q, r) - Sq(Dot3(a, b, c, p, q, r))
  {
    calc {
      Dot3(b * r - c * q, c * p - a * r, a * q - b * p, b * r - c * q, c * p - a * r, a * q - b * p);
      (b * r - c * q) * (b * r - c * q) + (c * p - a * r) * (c * p - a * r) + (a * q - b * p) * (a * q - b * p);
      (a * a + b * b + c * c) * (p * p + q * q + r * r) - (a * p + b * q + c * r) * (a * p + b * q + c * r);
    }
  }

  /** The squared lengths of three combinations of three vectors, from the inner products of the vectors. */
  lemma SquaresExpand(x: real, y: real, z: real, a: real, b: real, c: real, k: real, l: real, m: real, p: real,
                      q: real, r: real)
    ensures Sq(Dot3(a, k, p, x, y, z)) + Sq(Dot3(b, l, q, x, y, z)) + Sq(Dot3(c, m, r, x, y, z))
         == x * x * Dot3(a, b, c, a, b, c) + y * y * Dot3(k, l, m, k, l, m) + z * z * Dot3(p, q, r, p, q, r)
          + 2.0 * (x * y * Dot3(a, b, c, k, l, m) + x * z * Dot3(a, b, c, p, q, r) + y * z * Dot3(k, l, m, p, q, r))
  {
    calc {
      Sq(a * x + k * y + p * z) + Sq(b * x + l * y + q * z) + Sq(c * x + m * y + r * z);
      (a * x + k * y + p * z) * (a * x + k * y + p * z) + (b * x + l * y + q * z) * (b * x + l * y + q * z)
        + (c * x + m * y + r * z) * (c * x + m * y + r * z);
      x * x * (a * a + b * b + c * c) + y * y * (k * k + l * l + m * m) + z * z * (p * p + q * q + r * r)
        + 2.0 * (x * y * (a * k + b * l + c * m) + x * z * (a * p + b * q + c * r) + y * z * (k * p + l * q + m * r));
    }
  }

  lemma ScaleOut(k: real, x: real, y: real, z: real)
    ensures x * x * k + y * y * k + z * z * k == Times(k, Dot3(x, y, z, x, y, z))
  {
  }

  /** The squared length of `H' m`, written with the columns of the homogeneous matrix `H`. */
  lemma TurnedBackLength(q: Quaternion, m: Vector3)
    ensures Sq(Inner(HomogeneousColumn(q, 0), m)) + Sq(Inner(HomogeneousColumn(q, 1), m))
            + Sq(Inner(HomogeneousColumn(q, 2), m))
         == Times(Times(NormSquared(q), NormSquared(q)), Inner(m, m))
  {
    var a, k, p := HomogeneousRow(q, 0), HomogeneousRow(q, 1), HomogeneousRow(q, 2);
    HomogeneousRowsOrthogonal(q, 0, 0);
    HomogeneousRowsOrthogonal(q, 1, 1);
    HomogeneousRowsOrthogonal(q, 2, 2);
    HomogeneousRowsOrthogonal(q, 0, 1);
    HomogeneousRowsOrthogonal(q, 0, 2);
    HomogeneousRowsOrthogonal(q, 1, 2);
    SquaresExpand(m.x, m.y, m.z, a.x, a.y, a.z, k.x, k.y, k.z, p.x, p.y, p.z);
    ScaleOut(Times(NormSquared(q), NormSquared(q)), m.x, m.y, m.z);
  }

  /** Columns of the homogeneous matrix have the squared length |q|^4. */
  lemma ColumnLength(q: Quaternion, j: int)
    requires 0 <= j < 3
    ensures Inner(HomogeneousColumn(q, j), HomogeneousColumn(q, j)) == Times(NormSquared(q), NormSquared(q))
  {
    ConjugateTransposes(q, j);
    HomogeneousRowsOrthogonal(Conjugate(q), j, j);
  }

  lemma UnitColumn(q: Quaternion, j: int)
    requires NormSquared(q) == 1.0 && 0 <= j < 3
    ensures HomogeneousColumn(q, j) == RotationColumn(q, j)
  {
    UnitRotation(q, 0, j);
    UnitRotation(q, 1, j);
    UnitRotation(q, 2, j);
  }

  lemma CrossLength(c: Vector3, m: Vector3, k: real)
    requires Inner(c, c) == k
    ensures Inner(Cross(c, m), Cross(c, m)) == Times(k, Inner(m, m)) - Sq(Inner(c, m))
  {
    Lagrange(c.x, c.y, c.z, m.x, m.y, m.z);
  }

  /** The squared lengths of the three rows add up to twice |q|^4 times that of the reference. */
  lemma RowLengths(state: Vec, P: Mat, meas: Vec, magRef: Vec, R: real)
    ensures var u, m := ComputeMagInnovVarAndH(state, P, meas, magRef, R), Vector(magRef);
            var x, y, z := Vector(u.hx), Vector(u.hy), Vector(u.hz);
            var n := NormSquared(VStateToState(state).quat);
            && Inner(x, x) + Inner(y, y) + Inner(z, z) == 2.0 * Times(Times(n, n), Inner(m, m))
            && (n == 1.0 ==> Inner(x, x) + Inner(y, y) + Inner(z, z) == 2.0 * Inner(m, m))
  {
    var q, m := VStateToState(state).quat, Vector(magRef);
    var k := Times(NormSquared(q), NormSquared(q));
    RowsAreCrossProducts(state, P, meas, magRef, R);
    ColumnLength(q, 0);
    ColumnLength(q, 1);
    ColumnLength(q, 2);
    CrossLength(HomogeneousColumn(q, 0), m, k);
    CrossLength(HomogeneousColumn(q, 1), m, k);
    CrossLength(HomogeneousColumn(q, 2), m, k);
    TurnedBackLength(q, m);
  }

  /** For a unit quaternion the innovation, with the measurement put back, is as long as the reference. */
  lemma InnovationLength(state: Vec, P: Mat, meas: Vec, magRef: Vec, R: real)
    requires NormSquared(VStateToState(state).quat) == 1.0
    ensures var r := Add3(ComputeMagInnovVarAndH(state, P, meas, magRef, R).innov, Vector(meas));
            Sq(r.x) + Sq(r.y) + Sq(r.z) == Inner(Vector(magRef), Vector(magRef))
  {
    var q, m := VStateToState(state).quat, Vector(magRef);
    InnovationIsRotated(state, P, meas, magRef, R);
    UnitColumn(q, 0);
    UnitColumn(q, 1);
    UnitColumn(q, 2);
    TurnedBackLength(q, m);
    assert Add3(ComputeMagInnovVarAndH(state, P, meas, magRef, R).innov, Vector(meas)) == RotateBack(q, m);
  }

  // The innovation variance is `h P h' + R`.

  lemma FirstThree(f: Vec)
    ensures Sum(3, f) == f(0) + f(1) + f(2)
  {
    assert Sum(2, f) == f(0) + f(1);
  }

  lemma ThreeTerms(f: Vec, u: Vec)
    requires forall k :: 3 <= k < 15 ==> f(k) == 0.0
    ensures Dot(15, f, u) == Dot3(f(0), f(1), f(2), u(0), u(1), u(2))
  {
    var g: Vec := k => f(k) * u(k);
    forall k | 3 <= k < 15 ensures g(k) == 0.0 {
      assert 0.0 * u(k) == 0.0;
    }
    SumZeroTail(3, 15, g);
    assert Dot(15, f, u) == Sum(15, g);
    FirstThree(g);
  }

  lemma RowApply(P: Mat, h: Vector3, i: int)
    ensures Apply(15, P, FullRow(h))(i) == Dot3(h.x, h.y, h.z, P(i, 0), P(i, 1), P(i, 2))
  {
    ApplyIsDot(15, P, FullRow(h), i);
    DotSymmetric(15, Row(P, i), FullRow(h));
    ThreeTerms(FullRow(h), Row(P, i));
  }

  /** `h P h'` for a row with the three entries given. */
  function ShortQuad(P: Mat, a: real, b: real, c: real): real {
    Dot3(a, b, c, Dot3(a, b, c, P(0, 0), P(0, 1), P(0, 2)), Dot3(a, b, c, P(1, 0), P(1, 1), P(1, 2)),
         Dot3(a, b, c, P(2, 0), P(2, 1), P(2, 2)))
  }

  lemma RowQuad(P: Mat, h: Vector3)
    ensures Quad(15, P, FullRow(h)) == ShortQuad(P, h.x, h.y, h.z)
  {
    ThreeTerms(FullRow(h), Apply(15, P, FullRow(h)));
    RowApply(P, h, 0);
    RowApply(P, h, 1);
    RowApply(P, h, 2);
  }

  lemma VarianceXIsQuad(P: Mat, a: real, b: real, c: real, R: real)
    ensures VarianceX(P, a, b, c, R) == ShortQuad(P, a, b, c) + R
  {
    calc {
      VarianceX(P, a, b, c, R);
      R + c * (P(0, 2) * a + P(1, 2) * b + P(2, 2) * c) + a * (P(0, 0) * a + P(1, 0) * b + P(2, 0) * c)
        + b * (P(0, 1) * a + P(1, 1) * b + P(2, 1) * c);
      a * (a * P(0, 0) + b * P(0, 1) + c * P(0, 2)) + b * (a * P(1, 0) + b * P(1, 1) + c * P(1, 2))
        + c * (a * P(2, 0) + b * P(2, 1) + c * P(2, 2)) + R;
      Dot3(a, b, c, a * P(0, 0) + b * P(0, 1) + c * P(0, 2), a * P(1, 0) + b * P(1, 1) + c * P(1, 2),
           a * P(2, 0) + b * P(2, 1) + c * P(2, 2)) + R;
    }
  }

  lemma VarianceYIsQuad(P: Mat, a: real, b: real, c: real, R: real)
    ensures VarianceY(P, a, b, c, R) == ShortQuad(P, a, b, c) + R
  {
    calc {
      VarianceY(P, a, b, c, R);
      R + a * (P(0, 0) * a + P(1, 0) * b + P(2, 0) * c) + b * (P(0, 1) * a + P(1, 1) * b + P(2, 1) * c)
        + c * (P(0, 2) * a + P(1, 2) * b + P(2, 2) * c);
      a * (a * P(0, 0) + b * P(0, 1) + c * P(0, 2)) + b * (a * P(1, 0) + b * P(1, 1) + c * P(1, 2))
        + c * (a * P(2, 0) + b * P(2, 1) + c * P(2, 2)) + R;
      Dot3(a, b, c, a * P(0, 0) + b * P(0, 1) + c * P(0, 2), a * P(1, 0) + b * P(1, 1) + c * P(1, 2),
           a * P(2, 0) + b * P(2, 1) + c * P(2, 2)) + R;
    }
  }

  lemma VarianceZIsQuad(P: Mat, a: real, b: real, c: real, R: real)
    ensures VarianceZ(P, a, b, c, R) == ShortQuad(P, a, b, c) + R
  {
    calc {
      VarianceZ(P, a, b, c, R);
      R + b * (P(0, 1) * a + P(1, 1) * b + P(2, 1) * c) + c * (P(0, 2) * a + P(1, 2) * b + P(2, 2) * c)
        + a * (P(0, 0) * a + P(1, 0) * b + P(2, 0) * c);
      a * (a * P(0, 0) + b * P(0, 1) + c * P(0, 2)) + b * (a * P(1, 0) + b * P(1, 1) + c * P(1, 2))
        + c * (a * P(2, 0) + b * P(2, 1) + c * P(2, 2)) + R;
      Dot3(a, b, c, a * P(0, 0) + b * P(0, 1) + c * P(0, 2), a * P(1, 0) + b * P(1, 1) + c * P(1, 2),
           a * P(2, 0) + b * P(2, 1) + c * P(2, 2)) + R;
    }
  }

  /** Each innovation variance is `h P h' + R` for the row `h` returned with it, for every `P`. */
  lemma VarianceIsQuadratic(state: Vec, P: Mat, meas: Vec, magRef: Vec, R: real)
    ensures var u := ComputeMagInnovVarAndH(state, P, meas, magRef, R);
            && u.innovVar.x == Quad(15, P, u.hx) + R
            && u.innovVar.y == Quad(15, P, u.hy) + R
            && u.innovVar.z == Quad(15, P, u.hz) + R
  {
    var h := MagRows(state, MagPartials(state, magRef));
    VarianceOf(P, h, R);
  }

  lemma VarianceOf(P: Mat, h: Rows, R: real)
    ensures var v := InnovationVariance(P, h, R);
            v.x == Quad(15, P, FullRow(h.x)) + R && v.y == Quad(15, P, FullRow(h.y)) + R
            && v.z == Quad(15, P, FullRow(h.z)) + R
  {
    RowQuad(P, h.x);
    RowQuad(P, h.y);
    RowQuad(P, h.z);
    VarianceXIsQuad(P, h.x.x, h.x.y, h.x.z, R);
    VarianceYIsQuad(P, h.y.x, h.y.y, h.y.z, R);
    VarianceZIsQuad(P, h.z.x, h.z.y, h.z.z, R);
  }

  /** After any run of predictions from a covariance, no innovation variance is below the sensor's. */
  lemma VarianceAfterRun(P: Mat, steps: seq<PredictionStep>, state: Vec, meas: Vec, magRef: Vec, R: real)
    requires IsCovariance(P)
    requires forall k :: 0 <= k < |steps| ==> ValidStep(steps[k])
    ensures var v := ComputeMagInnovVarAndH(state, Run(P, steps), meas, magRef, R).innovVar;
            v.x >= R && v.y >= R && v.z >= R
  {
    RunKeepsCovariance(P, steps);
    VarianceIsQuadratic(state, Run(P, steps), meas, magRef, R);
  }
}
