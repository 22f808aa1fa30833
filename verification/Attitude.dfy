/**
 Quaternions and rotation matrices in the conventions of the filter derivation: products
 are not normalised, and a rotation acts on a vector through the `1 - 2*y*y - 2*z*z` form of
 its matrix.

 Products and matrix entries are written through functions of plain reals. A lemma about
 them opens those functions once, on named reals, and everything else follows by substitution.
 */
module Attitude {

  datatype Vector3 = Vector3(x: real, y: real, z: real)

  datatype Quaternion = Quaternion(w: real, x: real, y: real, z: real)

  const ZERO3 := Vector3(0.0, 0.0, 0.0)

  function Dot3(a: real, b: real, c: real, x: real, y: real, z: real): real {
    a * x + b * y + c * z
  }

  /** One component of a cross product. */
  function Minor(a: real, b: real, x: real, y: real): real {
    a * y - b * x
  }

  function Times(a: real, b: real): real {
    a * b
  }

  function Minus(a: real, b: real): real {
    a - b
  }

  function Added(a: real, b: real): real {
    a + b
  }

  function Negated(a: real): real {
    -a
  }

  function Add3(a: Vector3, b: Vector3): Vector3 {
    Vector3(Added(a.x, b.x), Added(a.y, b.y), Added(a.z, b.z))
  }

  function Sub3(a: Vector3, b: Vector3): Vector3 {
    Vector3(Minus(a.x, b.x), Minus(a.y, b.y), Minus(a.z, b.z))
  }

  function Scale3(s: real, a: Vector3): Vector3 {
    Vector3(Times(s, a.x), Times(s, a.y), Times(s, a.z))
  }

  function Cross(a: Vector3, b: Vector3): Vector3 {
    Vector3(Minor(a.y, a.z, b.y, b.z), Minor(a.z, a.x, b.z, b.x), Minor(a.x, a.y, b.x, b.y))
  }

  function Inner(a: Vector3, b: Vector3): real {
    Dot3(a.x, a.y, a.z, b.x, b.y, b.z)
  }

  /** Component `i`, counted from 0. */
  function At3(a: Vector3, i: int): real {
    if i == 0 then a.x else if i == 1 then a.y else a.z
  }

  function NormSquared(q: Quaternion): real {
    q.w * q.w + q.x * q.x + q.y * q.y + q.z * q.z
  }

  function MulW(a: real, b: real, c: real, d: real, e: real, f: real, g: real, h: real): real {
    a * e - b * f - c * g - d * h
  }

  /** The first imaginary component; the others follow by renaming the axes cyclically. */
  function MulX(a: real, b: real, c: real, d: real, e: real, f: real, g: real, h: real): real {
    a * f + b * e + c * h - d * g
  }

  function QMul(p: Quaternion, q: Quaternion): Quaternion {
    Quaternion(
      MulW(p.w, p.x, p.y, p.z, q.w, q.x, q.y, q.z),
      MulX(p.w, p.x, p.y, p.z, q.w, q.x, q.y, q.z),
      MulX(p.w, p.y, p.z, p.x, q.w, q.y, q.z, q.x),
      MulX(p.w, p.z, p.x, p.y, q.w, q.z, q.x, q.y))
  }

  function Plus(a: real, s: real, b: real): real {
    a + s * b
  }

  /** `p + s * q` */
  function QPlus(p: Quaternion, s: real, q: Quaternion): Quaternion {
    Quaternion(Plus(p.w, s, q.w), Plus(p.x, s, q.x), Plus(p.y, s, q.y), Plus(p.z, s, q.z))
  }

  /** `a + s * b` */
  function Plus3(a: Vector3, s: real, b: Vector3): Vector3 {
    Vector3(Plus(a.x, s, b.x), Plus(a.y, s, b.y), Plus(a.z, s, b.z))
  }

  /** The imaginary axes renamed cyclically. */
  function Cycle(q: Quaternion): Quaternion {
    Quaternion(q.w, q.y, q.z, q.x)
  }

  function Conjugate(q: Quaternion): Quaternion {
    Quaternion(q.w, Negated(q.x), Negated(q.y), Negated(q.z))
  }

  function WithVector(w: real, v: Vector3): Quaternion {
    Quaternion(w, v.x, v.y, v.z)
  }

  function VectorPart(q: Quaternion): Vector3 {
    Vector3(q.x, q.y, q.z)
  }

  /** `q p q*` */
  function Sandwich(q: Quaternion, p: Quaternion): Quaternion {
    QMul(QMul(q, p), Conjugate(q))
  }

  // Entries of rotation matrices.

  function UnitDiagonal(b: real, c: real): real {
    1.0 - 2.0 * (b * b) - 2.0 * (c * c)
  }

  function HomogeneousDiagonal(w: real, a: real, b: real, c: real): real {
    w * w + a * a - b * b - c * c
  }

  function Upper(a: real, b: real, w: real, c: real): real {
    2.0 * (a * b) - 2.0 * (w * c)
  }

  function Lower(a: real, b: real, w: real, c: real): real {
    2.0 * (a * b) + 2.0 * (w * c)
  }

  /** Entry (i, j) of the matrix that rotates by `q`, in the form that assumes a unit quaternion. */
  function Rotation(q: Quaternion, i: int, j: int): real {
    if i == 0 then
      if j == 0 then UnitDiagonal(q.y, q.z) else if j == 1 then Upper(q.x, q.y, q.w, q.z) else Lower(q.z, q.x, q.w, q.y)
    else if i == 1 then
      if j == 0 then Lower(q.x, q.y, q.w, q.z) else if j == 1 then UnitDiagonal(q.z, q.x) else Upper(q.y, q.z, q.w, q.x)
    else
      if j == 0 then Upper(q.z, q.x, q.w, q.y) else if j == 1 then Lower(q.y, q.z, q.w, q.x) else UnitDiagonal(q.x, q.y)
  }

  /** Entry (i, j) of the matrix of `v -> q v q*`, homogeneous of degree two in `q`. */
  function Homogeneous(q: Quaternion, i: int, j: int): real {
    if i == 0 && j == 0 then HomogeneousDiagonal(q.w, q.x, q.y, q.z)
    else if i == 1 && j == 1 then HomogeneousDiagonal(q.w, q.y, q.z, q.x)
    else if i == 2 && j == 2 then HomogeneousDiagonal(q.w, q.z, q.x, q.y)
    else Rotation(q, i, j)
  }

  function RotationRow(q: Quaternion, i: int): Vector3 {
    Vector3(Rotation(q, i, 0), Rotation(q, i, 1), Rotation(q, i, 2))
  }

  /** The rotation of `v` by `q`, as the derivation applies it. */
  function Rotate(q: Quaternion, v: Vector3): Vector3 {
    Vector3(Inner(RotationRow(q, 0), v), Inner(RotationRow(q, 1), v), Inner(RotationRow(q, 2), v))
  }

  function HomogeneousRow(q: Quaternion, i: int): Vector3 {
    Vector3(Homogeneous(q, i, 0), Homogeneous(q, i, 1), Homogeneous(q, i, 2))
  }

  function HomogeneousColumn(q: Quaternion, j: int): Vector3 {
    Vector3(Homogeneous(q, 0, j), Homogeneous(q, 1, j), Homogeneous(q, 2, j))
  }

  /** The vector part of `q v q*`. */
  function RotateHomogeneous(q: Quaternion, v: Vector3): Vector3 {
    Vector3(Inner(HomogeneousRow(q, 0), v), Inner(HomogeneousRow(q, 1), v), Inner(HomogeneousRow(q, 2), v))
  }

  /** Entry (i, j) of the cross-product matrix of `a`. */
  function Skew(a: Vector3, i: int, j: int): real {
    if i == j then 0.0
    else if i == 0 then (if j == 1 then Negated(a.z) else a.y)
    else if i == 1 then (if j == 0 then a.z else Negated(a.x))
    else if j == 0 then Negated(a.y) else a.x
  }

  /** For a unit quaternion both matrices are the same. */
  lemma UnitRotation(q: Quaternion, i: int, j: int)
    requires NormSquared(q) == 1.0
    requires 0 <= i < 3 && 0 <= j < 3
    ensures Homogeneous(q, i, j) == Rotation(q, i, j)
  {
  }

  // The product is associative, bilinear and reversed by conjugation.

  lemma AssociativeW(a: real, b: real, c: real, d: real, e: real, f: real, g: real, h: real, k: real, l: real, m: real,
                     n: real)
    ensures MulW(MulW(a, b, c, d, e, f, g, h), MulX(a, b, c, d, e, f, g, h),
                 MulX(a, c, d, b, e, g, h, f), MulX(a, d, b, c, e, h, f, g), k, l, m, n)
         == MulW(a, b, c, d, MulW(e, f, g, h, k, l, m, n), MulX(e, f, g, h, k, l, m, n),
                 MulX(e, g, h, f, k, m, n, l), MulX(e, h, f, g, k, n, l, m))
  {
    calc {
      MulW(a * e - b * f - c * g - d * h, a * f + b * e + c * h - d * g,
           a * g + c * e + d * f - b * h, a * h + d * e + b * g - c * f, k, l, m, n);
      (a * e - b * f - c * g - d * h) * k - (a * f + b * e + c * h - d * g) * l
      - (a * g + c * e + d * f - b * h) * m - (a * h + d * e + b * g - c * f) * n;
      a * (e * k - f * l - g * m - h * n) - b * (e * l + f * k + g * n - h * m)
      - c * (e * m + g * k + h * l - f * n) - d * (e * n + h * k + f * m - g * l);
      MulW(a, b, c, d, e * k - f * l - g * m - h * n, e * l + f * k + g * n - h * m,
           e * m + g * k + h * l - f * n, e * n + h * k + f * m - g * l);
    }
  }

  lemma AssociativeX(a: real, b: real, c: real, d: real, e: real, f: real, g: real, h: real, k: real, l: real, m: real,
                     n: real)
    ensures MulX(MulW(a, b, c, d, e, f, g, h), MulX(a, b, c, d, e, f, g, h),
                 MulX(a, c, d, b, e, g, h, f), MulX(a, d, b, c, e, h, f, g), k, l, m, n)
         == MulX(a, b, c, d, MulW(e, f, g, h, k, l, m, n), MulX(e, f, g, h, k, l, m, n),
                 MulX(e, g, h, f, k, m, n, l), MulX(e, h, f, g, k, n, l, m))
  {
    calc {
      MulX(a * e - b * f - c * g - d * h, a * f + b * e + c * h - d * g,
           a * g + c * e + d * f - b * h, a * h + d * e + b * g - c * f, k, l, m, n);
      (a * e - b * f - c * g - d * h) * l + (a * f + b * e + c * h - d * g) * k
      + (a * g + c * e + d * f - b * h) * n - (a * h + d * e + b * g - c * f) * m;
      a * (e * l + f * k + g * n - h * m) + b * (e * k - f * l - g * m - h * n)
      + c * (e * n + h * k + f * m - g * l) - d * (e * m + g * k + h * l - f * n);
      MulX(a, b, c, d, e * k - f * l - g * m - h * n, e * l + f * k + g * n - h * m,
           e * m + g * k + h * l - f * n, e * n + h * k + f * m - g * l);
    }
  }

  lemma QMulAssociative(p: Quaternion, q: Quaternion, r: Quaternion)
    ensures QMul(QMul(p, q), r) == QMul(p, QMul(q, r))
  {
    AssociativeW(p.w, p.x, p.y, p.z, q.w, q.x, q.y, q.z, r.w, r.x, r.y, r.z);
    AssociativeX(p.w, p.x, p.y, p.z, q.w, q.x, q.y, q.z, r.w, r.x, r.y, r.z);
    AssociativeX(p.w, p.y, p.z, p.x, q.w, q.y, q.z, q.x, r.w, r.y, r.z, r.x);
    AssociativeX(p.w, p.z, p.x, p.y, q.w, q.z, q.x, q.y, r.w, r.z, r.x, r.y);
  }

  lemma ConjugateParts(a: real, b: real, c: real, d: real, e: real, f: real, g: real, h: real)
    ensures MulW(e, Negated(f), Negated(g), Negated(h), a, Negated(b), Negated(c), Negated(d))
              == MulW(a, b, c, d, e, f, g, h)
    ensures MulX(e, Negated(f), Negated(g), Negated(h), a, Negated(b), Negated(c), Negated(d))
         == Negated(MulX(a, b, c, d, e, f, g, h))
  {
    assert MulW(e, -f, -g, -h, a, -b, -c, -d) == a * e - b * f - c * g - d * h;
    assert MulX(e, -f, -g, -h, a, -b, -c, -d) == -(a * f + b * e + c * h - d * g);
  }

  lemma ConjugateMul(p: Quaternion, q: Quaternion)
    ensures Conjugate(QMul(p, q)) == QMul(Conjugate(q), Conjugate(p))
  {
    ConjugateParts(p.w, p.x, p.y, p.z, q.w, q.x, q.y, q.z);
    ConjugateParts(p.w, p.y, p.z, p.x, q.w, q.y, q.z, q.x);
    ConjugateParts(p.w, p.z, p.x, p.y, q.w, q.z, q.x, q.y);
  }

  lemma RightLinearParts(s: real, a: real, b: real, c: real, d: real, e: real, f: real, g: real, h: real,
                         k: real, l: real, m: real, n: real)
    ensures MulW(a, b, c, d, Plus(e, s, k), Plus(f, s, l), Plus(g, s, m), Plus(h, s, n))
         == Plus(MulW(a, b, c, d, e, f, g, h), s, MulW(a, b, c, d, k, l, m, n))
    ensures MulX(a, b, c, d, Plus(e, s, k), Plus(f, s, l), Plus(g, s, m), Plus(h, s, n))
         == Plus(MulX(a, b, c, d, e, f, g, h), s, MulX(a, b, c, d, k, l, m, n))
  {
    calc {
      MulW(a, b, c, d, e + s * k, f + s * l, g + s * m, h + s * n);
      a * (e + s * k) - b * (f + s * l) - c * (g + s * m) - d * (h + s * n);
      a * e - b * f - c * g - d * h + s * (a * k - b * l - c * m - d * n);
      Plus(a * e - b * f - c * g - d * h, s, a * k - b * l - c * m - d * n);
    }
    calc {
      MulX(a, b, c, d, e + s * k, f + s * l, g + s * m, h + s * n);
      a * (f + s * l) + b * (e + s * k) + c * (h + s * n) - d * (g + s * m);
      a * f + b * e + c * h - d * g + s * (a * l + b * k + c * n - d * m);
      Plus(a * f + b * e + c * h - d * g, s, a * l + b * k + c * n - d * m);
    }
  }

  lemma LeftLinearParts(s: real, a: real, b: real, c: real, d: real, e: real, f: real, g: real, h: real,
                        k: real, l: real, m: real, n: real)
    ensures MulW(Plus(e, s, k), Plus(f, s, l), Plus(g, s, m), Plus(h, s, n), a, b, c, d)
         == Plus(MulW(e, f, g, h, a, b, c, d), s, MulW(k, l, m, n, a, b, c, d))
    ensures MulX(Plus(e, s, k), Plus(f, s, l), Plus(g, s, m), Plus(h, s, n), a, b, c, d)
         == Plus(MulX(e, f, g, h, a, b, c, d), s, MulX(k, l, m, n, a, b, c, d))
  {
    calc {
      MulW(e + s * k, f + s * l, g + s * m, h + s * n, a, b, c, d);
      (e + s * k) * a - (f + s * l) * b - (g + s * m) * c - (h + s * n) * d;
      e * a - f * b - g * c - h * d + s * (k * a - l * b - m * c - n * d);
      Plus(e * a - f * b - g * c - h * d, s, k * a - l * b - m * c - n * d);
    }
    calc {
      MulX(e + s * k, f + s * l, g + s * m, h + s * n, a, b, c, d);
      (e + s * k) * b + (f + s * l) * a + (g + s * m) * d - (h + s * n) * c;
      e * b + f * a + g * d - h * c + s * (k * b + l * a + m * d - n * c);
      Plus(e * b + f * a + g * d - h * c, s, k * b + l * a + m * d - n * c);
    }
  }

  /** Multiplication is linear on the right. */
  lemma QMulRightLinear(p: Quaternion, q: Quaternion, s: real, r: Quaternion)
    ensures QMul(p, QPlus(q, s, r)) == QPlus(QMul(p, q), s, QMul(p, r))
  {
    RightLinearParts(s, p.w, p.x, p.y, p.z, q.w, q.x, q.y, q.z, r.w, r.x, r.y, r.z);
    RightLinearParts(s, p.w, p.y, p.z, p.x, q.w, q.y, q.z, q.x, r.w, r.y, r.z, r.x);
    RightLinearParts(s, p.w, p.z, p.x, p.y, q.w, q.z, q.x, q.y, r.w, r.z, r.x, r.y);
  }

  /** Multiplication is linear on the left. */
  lemma QMulLeftLinear(q: Quaternion, s: real, r: Quaternion, p: Quaternion)
    ensures QMul(QPlus(q, s, r), p) == QPlus(QMul(q, p), s, QMul(r, p))
  {
    LeftLinearParts(s, p.w, p.x, p.y, p.z, q.w, q.x, q.y, q.z, r.w, r.x, r.y, r.z);
    LeftLinearParts(s, p.w, p.y, p.z, p.x, q.w, q.y, q.z, q.x, r.w, r.y, r.z, r.x);
    LeftLinearParts(s, p.w, p.z, p.x, p.y, q.w, q.z, q.x, q.y, r.w, r.z, r.x, r.y);
  }

  lemma SandwichLinear(q: Quaternion, p: Quaternion, s: real, r: Quaternion)
    ensures Sandwich(q, QPlus(p, s, r)) == QPlus(Sandwich(q, p), s, Sandwich(q, r))
  {
    QMulRightLinear(q, p, s, r);
    QMulLeftLinear(QMul(q, p), s, QMul(q, r), Conjugate(q));
  }

  // `q (u, v) q*` has scalar part `u |q|^2` and vector part the homogeneous rotation of `v`.

  lemma SandwichXTerms(a: real, b: real, c: real, d: real, u: real, x: real, y: real, z: real)
    ensures (a * u - b * x - c * y - d * z) * -b + (a * x + b * u + c * z - d * y) * a
              + (a * y + c * u + d * x - b * z) * -d - (a * z + d * u + b * y - c * x) * -c
         == (a * a + b * b - c * c - d * d) * x + (2.0 * (b * c) - 2.0 * (a * d)) * y
            + (2.0 * (d * b) + 2.0 * (a * c)) * z
  {
  }

  lemma SandwichX(a: real, b: real, c: real, d: real, u: real, x: real, y: real, z: real)
    ensures MulX(MulW(a, b, c, d, u, x, y, z), MulX(a, b, c, d, u, x, y, z),
                 MulX(a, c, d, b, u, y, z, x), MulX(a, d, b, c, u, z, x, y), a, Negated(b), Negated(c), Negated(d))
         == Dot3(HomogeneousDiagonal(a, b, c, d), Upper(b, c, a, d), Lower(d, b, a, c), x, y, z)
  {
    SandwichXTerms(a, b, c, d, u, x, y, z);
  }

  lemma SandwichWTerms(a: real, b: real, c: real, d: real, u: real, x: real, y: real, z: real)
    ensures (a * u - b * x - c * y - d * z) * a - (a * x + b * u + c * z - d * y) * -b
              - (a * y + c * u + d * x - b * z) * -c - (a * z + d * u + b * y - c * x) * -d
         == u * (a * a + b * b + c * c + d * d)
  {
  }

  lemma SandwichW(a: real, b: real, c: real, d: real, u: real, x: real, y: real, z: real)
    ensures MulW(MulW(a, b, c, d, u, x, y, z), MulX(a, b, c, d, u, x, y, z),
                 MulX(a, c, d, b, u, y, z, x), MulX(a, d, b, c, u, z, x, y), a, Negated(b), Negated(c), Negated(d))
         == u * (a * a + b * b + c * c + d * d)
  {
    SandwichWTerms(a, b, c, d, u, x, y, z);
  }

  lemma Dot3Rotate(a: real, b: real, c: real, x: real, y: real, z: real)
    ensures Dot3(a, b, c, x, y, z) == Dot3(c, a, b, z, x, y) == Dot3(b, c, a, y, z, x)
  {
  }

  lemma SandwichScalar(q: Quaternion, u: real, v: Vector3)
    ensures Sandwich(q, WithVector(u, v)).w == Times(u, NormSquared(q))
  {
    SandwichW(q.w, q.x, q.y, q.z, u, v.x, v.y, v.z);
  }

  lemma SandwichFirst(q: Quaternion, u: real, v: Vector3)
    ensures Sandwich(q, WithVector(u, v)).x == Inner(HomogeneousRow(q, 0), v)
  {
    SandwichX(q.w, q.x, q.y, q.z, u, v.x, v.y, v.z);
  }

  lemma SandwichSecond(q: Quaternion, u: real, v: Vector3)
    ensures Sandwich(q, WithVector(u, v)).y == Inner(HomogeneousRow(q, 1), v)
  {
    var m := HomogeneousRow(q, 1);
    SandwichX(q.w, q.y, q.z, q.x, u, v.y, v.z, v.x);
    Dot3Rotate(m.x, m.y, m.z, v.x, v.y, v.z);
  }

  lemma SandwichThird(q: Quaternion, u: real, v: Vector3)
    ensures Sandwich(q, WithVector(u, v)).z == Inner(HomogeneousRow(q, 2), v)
  {
    var m := HomogeneousRow(q, 2);
    SandwichX(q.w, q.z, q.x, q.y, u, v.z, v.x, v.y);
    Dot3Rotate(m.x, m.y, m.z, v.x, v.y, v.z);
  }

  lemma SandwichIsRotation(q: Quaternion, u: real, v: Vector3)
    ensures Sandwich(q, WithVector(u, v)) == WithVector(Times(u, NormSquared(q)), RotateHomogeneous(q, v))
  {
    SandwichScalar(q, u, v);
    SandwichFirst(q, u, v);
    SandwichSecond(q, u, v);
    SandwichThird(q, u, v);
  }

  // The rotation matrix along a line of quaternions `q + s * p` is a polynomial in `s`.

  function Poly(a: real, s: real, b: real, c: real): real {
    a + s * b + s * s * c
  }

  function MixedDiagonal(b: real, c: real, p: real, r: real): real {
    -4.0 * (b * p) - 4.0 * (c * r)
  }

  function MixedUpper(a: real, b: real, w: real, c: real, k: real, l: real, m: real, n: real): real {
    2.0 * (a * l + k * b) - 2.0 * (w * n + m * c)
  }

  function MixedLower(a: real, b: real, w: real, c: real, k: real, l: real, m: real, n: real): real {
    2.0 * (a * l + k * b) + 2.0 * (w * n + m * c)
  }

  /** The coefficient of `s` in entry (i, j) of the matrix of `q + s * p`. */
  function MixedRotation(q: Quaternion, p: Quaternion, i: int, j: int): real {
    if i == 0 then
      if j == 0 then MixedDiagonal(q.y, q.z, p.y, p.z)
      else if j == 1 then MixedUpper(q.x, q.y, q.w, q.z, p.x, p.y, p.w, p.z)
      else MixedLower(q.z, q.x, q.w, q.y, p.z, p.x, p.w, p.y)
    else if i == 1 then
      if j == 0 then MixedLower(q.x, q.y, q.w, q.z, p.x, p.y, p.w, p.z)
      else if j == 1 then MixedDiagonal(q.z, q.x, p.z, p.x)
      else MixedUpper(q.y, q.z, q.w, q.x, p.y, p.z, p.w, p.x)
    else
      if j == 0 then MixedUpper(q.z, q.x, q.w, q.y, p.z, p.x, p.w, p.y)
      else if j == 1 then MixedLower(q.y, q.z, q.w, q.x, p.y, p.z, p.w, p.x)
      else MixedDiagonal(q.x, q.y, p.x, p.y)
  }

  function MixedRow(q: Quaternion, p: Quaternion, i: int): Vector3 {
    Vector3(MixedRotation(q, p, i, 0), MixedRotation(q, p, i, 1), MixedRotation(q, p, i, 2))
  }

  /** The part of entry (i, j) that is quadratic in the quaternion. */
  function QuadraticRotation(p: Quaternion, i: int, j: int): real {
    Rotation(p, i, j) - (if i == j then 1.0 else 0.0)
  }

  function QuadraticRow(p: Quaternion, i: int): Vector3 {
    Vector3(QuadraticRotation(p, i, 0), QuadraticRotation(p, i, 1), QuadraticRotation(p, i, 2))
  }

  lemma DiagonalAlong(b: real, c: real, s: real, p: real, r: real)
    ensures UnitDiagonal(Plus(b, s, p), Plus(c, s, r))
         == Poly(UnitDiagonal(b, c), s, MixedDiagonal(b, c, p, r), UnitDiagonal(p, r) - 1.0)
  {
    calc {
      UnitDiagonal(b + s * p, c + s * r);
      1.0 - 2.0 * ((b + s * p) * (b + s * p)) - 2.0 * ((c + s * r) * (c + s * r));
      (1.0 - 2.0 * (b * b) - 2.0 * (c * c)) + s * (-4.0 * (b * p) - 4.0 * (c * r))
        + s * s * (1.0 - 2.0 * (p * p) - 2.0 * (r * r) - 1.0);
      Poly(1.0 - 2.0 * (b * b) - 2.0 * (c * c), s, -4.0 * (b * p) - 4.0 * (c * r),
           1.0 - 2.0 * (p * p) - 2.0 * (r * r) - 1.0);
    }
  }

  lemma UpperAlong(a: real, b: real, w: real, c: real, s: real, k: real, l: real, m: real, n: real)
    ensures Upper(Plus(a, s, k), Plus(b, s, l), Plus(w, s, m), Plus(c, s, n))
         == Poly(Upper(a, b, w, c), s, MixedUpper(a, b, w, c, k, l, m, n), Upper(k, l, m, n))
  {
    calc {
      Upper(a + s * k, b + s * l, w + s * m, c + s * n);
      2.0 * ((a + s * k) * (b + s * l)) - 2.0 * ((w + s * m) * (c + s * n));
      (2.0 * (a * b) - 2.0 * (w * c)) + s * (2.0 * (a * l + k * b) - 2.0 * (w * n + m * c))
        + s * s * (2.0 * (k * l) - 2.0 * (m * n));
      Poly(2.0 * (a * b) - 2.0 * (w * c), s, 2.0 * (a * l + k * b) - 2.0 * (w * n + m * c),
           2.0 * (k * l) - 2.0 * (m * n));
    }
  }

  lemma LowerAlong(a: real, b: real, w: real, c: real, s: real, k: real, l: real, m: real, n: real)
    ensures Lower(Plus(a, s, k), Plus(b, s, l), Plus(w, s, m), Plus(c, s, n))
         == Poly(Lower(a, b, w, c), s, MixedLower(a, b, w, c, k, l, m, n), Lower(k, l, m, n))
  {
    calc {
      Lower(a + s * k, b + s * l, w + s * m, c + s * n);
      2.0 * ((a + s * k) * (b + s * l)) + 2.0 * ((w + s * m) * (c + s * n));
      (2.0 * (a * b) + 2.0 * (w * c)) + s * (2.0 * (a * l + k * b) + 2.0 * (w * n + m * c))
        + s * s * (2.0 * (k * l) + 2.0 * (m * n));
      Poly(2.0 * (a * b) + 2.0 * (w * c), s, 2.0 * (a * l + k * b) + 2.0 * (w * n + m * c),
           2.0 * (k * l) + 2.0 * (m * n));
    }
  }

  lemma RotationAlong(q: Quaternion, s: real, p: Quaternion, i: int, j: int)
    requires 0 <= i < 3 && 0 <= j < 3
    ensures Rotation(QPlus(q, s, p), i, j)
         == Poly(Rotation(q, i, j), s, MixedRotation(q, p, i, j), QuadraticRotation(p, i, j))
  {
    DiagonalAlong(q.y, q.z, s, p.y, p.z);
    DiagonalAlong(q.z, q.x, s, p.z, p.x);
    DiagonalAlong(q.x, q.y, s, p.x, p.y);
    UpperAlong(q.x, q.y, q.w, q.z, s, p.x, p.y, p.w, p.z);
    UpperAlong(q.y, q.z, q.w, q.x, s, p.y, p.z, p.w, p.x);
    UpperAlong(q.z, q.x, q.w, q.y, s, p.z, p.x, p.w, p.y);
    LowerAlong(q.x, q.y, q.w, q.z, s, p.x, p.y, p.w, p.z);
    LowerAlong(q.y, q.z, q.w, q.x, s, p.y, p.z, p.w, p.x);
    LowerAlong(q.z, q.x, q.w, q.y, s, p.z, p.x, p.w, p.y);
  }

  // The direction in which `q` moves under a small rotation on its left.

  /** `(0, v/2) q` */
  function HalfTurn(v: Vector3, q: Quaternion): Quaternion {
    QMul(WithVector(0.0, Scale3(0.5, v)), q)
  }

  /** The unnormalised small rotation `(1, v/2)`. */
  function SmallRotation(v: Vector3): Quaternion {
    WithVector(1.0, Scale3(0.5, v))
  }

  lemma OneIsNeutral(q: Quaternion)
    ensures QMul(Quaternion(1.0, 0.0, 0.0, 0.0), q) == q
  {
  }

  lemma ScaledTurn(s: real, a: real)
    ensures Times(0.5, Times(s, a)) == Plus(0.0, s, Times(0.5, a))
  {
  }

  lemma SmallRotationSplits(s: real, v: Vector3)
    ensures SmallRotation(Scale3(s, v)) == QPlus(Quaternion(1.0, 0.0, 0.0, 0.0), s, WithVector(0.0, Scale3(0.5, v)))
  {
    ScaledTurn(s, v.x);
    ScaledTurn(s, v.y);
    ScaledTurn(s, v.z);
  }

  lemma SmallRotationMoves(s: real, v: Vector3, q: Quaternion)
    ensures QMul(SmallRotation(Scale3(s, v)), q) == QPlus(q, s, HalfTurn(v, q))
  {
    QMulLeftLinear(Quaternion(1.0, 0.0, 0.0, 0.0), s, WithVector(0.0, Scale3(0.5, v)), q);
    OneIsNeutral(q);
    SmallRotationSplits(s, v);
  }

  // The three kinds of entry of the derivative of the rotation matrix, for axes (x, y, z) and a
  // turn by (a, b, c).

  lemma DiagonalTurn(w: real, x: real, y: real, z: real, a: real, b: real, c: real)
    ensures MixedDiagonal(y, z, MulX(0.0, Times(0.5, b), Times(0.5, c), Times(0.5, a), w, y, z, x),
                          MulX(0.0, Times(0.5, c), Times(0.5, a), Times(0.5, b), w, z, x, y))
         == Minor(b, c, Lower(x, y, w, z), Upper(z, x, w, y))
  {
    calc {
      MixedDiagonal(y, z, 0.5 * (b * w + c * x - a * z), 0.5 * (c * w + a * y - b * x));
      -4.0 * (y * (0.5 * (b * w + c * x - a * z))) - 4.0 * (z * (0.5 * (c * w + a * y - b * x)));
      b * (2.0 * (z * x) - 2.0 * (w * y)) - c * (2.0 * (x * y) + 2.0 * (w * z));
      Minor(b, c, 2.0 * (x * y) + 2.0 * (w * z), 2.0 * (z * x) - 2.0 * (w * y));
    }
  }

  lemma UpperTurn(w: real, x: real, y: real, z: real, a: real, b: real, c: real)
    ensures MixedUpper(x, y, w, z,
                       MulX(0.0, Times(0.5, a), Times(0.5, b), Times(0.5, c), w, x, y, z),
                       MulX(0.0, Times(0.5, b), Times(0.5, c), Times(0.5, a), w, y, z, x),
                       MulW(0.0, Times(0.5, a), Times(0.5, b), Times(0.5, c), w, x, y, z),
                       MulX(0.0, Times(0.5, c), Times(0.5, a), Times(0.5, b), w, z, x, y))
         == Minor(b, c, HomogeneousDiagonal(w, y, z, x), Lower(y, z, w, x))
  {
    calc {
      MixedUpper(x, y, w, z, 0.5 * (a * w + b * z - c * y), 0.5 * (b * w + c * x - a * z),
                 -0.5 * (a * x + b * y + c * z), 0.5 * (c * w + a * y - b * x));
      2.0 * (x * (0.5 * (b * w + c * x - a * z)) + 0.5 * (a * w + b * z - c * y) * y)
        - 2.0 * (w * (0.5 * (c * w + a * y - b * x)) + -0.5 * (a * x + b * y + c * z) * z);
      b * (2.0 * (y * z) + 2.0 * (w * x)) - c * (w * w + y * y - z * z - x * x);
      Minor(b, c, w * w + y * y - z * z - x * x, 2.0 * (y * z) + 2.0 * (w * x));
    }
  }

  lemma LowerTurn(w: real, x: real, y: real, z: real, a: real, b: real, c: real)
    ensures MixedLower(x, y, w, z,
                       MulX(0.0, Times(0.5, a), Times(0.5, b), Times(0.5, c), w, x, y, z),
                       MulX(0.0, Times(0.5, b), Times(0.5, c), Times(0.5, a), w, y, z, x),
                       MulW(0.0, Times(0.5, a), Times(0.5, b), Times(0.5, c), w, x, y, z),
                       MulX(0.0, Times(0.5, c), Times(0.5, a), Times(0.5, b), w, z, x, y))
         == Minor(c, a, Upper(z, x, w, y), HomogeneousDiagonal(w, x, y, z))
  {
    calc {
      MixedLower(x, y, w, z, 0.5 * (a * w + b * z - c * y), 0.5 * (b * w + c * x - a * z),
                 -0.5 * (a * x + b * y + c * z), 0.5 * (c * w + a * y - b * x));
      2.0 * (x * (0.5 * (b * w + c * x - a * z)) + 0.5 * (a * w + b * z - c * y) * y)
        + 2.0 * (w * (0.5 * (c * w + a * y - b * x)) + -0.5 * (a * x + b * y + c * z) * z);
      c * (w * w + x * x - y * y - z * z) - a * (2.0 * (z * x) - 2.0 * (w * y));
      Minor(c, a, 2.0 * (z * x) - 2.0 * (w * y), w * w + x * x - y * y - z * z);
    }
  }

  /**
   Turning `q` by the small angle `v` on the left changes each column of the rotation matrix by
   its cross product with `v`. This holds for every quaternion, although the matrix that changes
   is the unit form and the columns in the product are the homogeneous ones.
   */
  lemma RotationDerivative(q: Quaternion, v: Vector3, i: int, j: int)
    requires 0 <= i < 3 && 0 <= j < 3
    ensures MixedRotation(q, HalfTurn(v, q), i, j) == At3(Cross(v, HomogeneousColumn(q, j)), i)
  {
    DiagonalTurn(q.w, q.x, q.y, q.z, v.x, v.y, v.z);
    DiagonalTurn(q.w, q.y, q.z, q.x, v.y, v.z, v.x);
    DiagonalTurn(q.w, q.z, q.x, q.y, v.z, v.x, v.y);
    UpperTurn(q.w, q.x, q.y, q.z, v.x, v.y, v.z);
    UpperTurn(q.w, q.y, q.z, q.x, v.y, v.z, v.x);
    UpperTurn(q.w, q.z, q.x, q.y, v.z, v.x, v.y);
    LowerTurn(q.w, q.x, q.y, q.z, v.x, v.y, v.z);
    LowerTurn(q.w, q.y, q.z, q.x, v.y, v.z, v.x);
    LowerTurn(q.w, q.z, q.x, q.y, v.z, v.x, v.y);
  }

  lemma MinorDot(b: real, c: real, y0: real, y1: real, y2: real, z0: real, z1: real, z2: real, u: real, v: real,
                 w: real)
    ensures Dot3(Minor(b, c, y0, z0), Minor(b, c, y1, z1), Minor(b, c, y2, z2), u, v, w)
         == Minor(b, c, Dot3(y0, y1, y2, u, v, w), Dot3(z0, z1, z2, u, v, w))
  {
    calc {
      Dot3(b * z0 - c * y0, b * z1 - c * y1, b * z2 - c * y2, u, v, w);
      (b * z0 - c * y0) * u + (b * z1 - c * y1) * v + (b * z2 - c * y2) * w;
      b * (z0 * u + z1 * v + z2 * w) - c * (y0 * u + y1 * v + y2 * w);
      Minor(b, c, y0 * u + y1 * v + y2 * w, z0 * u + z1 * v + z2 * w);
    }
  }

  /** The derivative of the rotated vector is the turn crossed with the homogeneously rotated one. */
  lemma RotatedDerivative(q: Quaternion, v: Vector3, u: Vector3, i: int)
    requires 0 <= i < 3
    ensures Inner(MixedRow(q, HalfTurn(v, q), i), u) == At3(Cross(v, RotateHomogeneous(q, u)), i)
  {
    RotationDerivative(q, v, i, 0);
    RotationDerivative(q, v, i, 1);
    RotationDerivative(q, v, i, 2);
    var x, y, z := HomogeneousRow(q, 0), HomogeneousRow(q, 1), HomogeneousRow(q, 2);
    MinorDot(v.y, v.z, y.x, y.y, y.z, z.x, z.y, z.z, u.x, u.y, u.z);
    MinorDot(v.z, v.x, z.x, z.y, z.z, x.x, x.y, x.z, u.x, u.y, u.z);
    MinorDot(v.x, v.y, x.x, x.y, x.z, y.x, y.y, y.z, u.x, u.y, u.z);
  }

  function Cubic(c0: real, t: real, c1: real, c2: real, c3: real): real {
    c0 + t * c1 + t * t * c2 + t * t * t * c3
  }

  lemma CubicTerms(t: real, a: real, m: real, k: real, u: real, w: real)
    ensures Times(Poly(a, t, m, k), Minus(u, Times(t, w))) == Cubic(a * u, t, m * u - a * w, k * u - m * w, -(k * w))
  {
    assert (a + t * m + t * t * k) * (u - t * w)
             == a * u + t * (m * u - a * w) + t * t * (k * u - m * w) - t * t * t * (k * w);
  }

  lemma CubicAdds(t: real, a: real, b: real, c: real, d: real, e: real, f: real, g: real, h: real,
                  i: real, j: real, k: real, l: real, m: real, n: real, o: real, p: real)
    requires m == a + e + i && n == b + f + j && o == c + g + k && p == d + h + l
    ensures Cubic(a, t, b, c, d) + Cubic(e, t, f, g, h) + Cubic(i, t, j, k, l) == Cubic(m, t, n, o, p)
  {
    Distribute(t, b, f, j, n);
    Distribute(t * t, c, g, k, o);
    Distribute(t * t * t, d, h, l, p);
  }

  lemma Distribute(s: real, a: real, b: real, c: real, sum: real)
    requires sum == a + b + c
    ensures s * sum == s * a + s * b + s * c
  {
  }

  lemma InnerSum(a: Vector3, b: Vector3)
    ensures Inner(a, b) == a.x * b.x + a.y * b.y + a.z * b.z
    ensures Negated(Inner(a, b)) == -(a.x * b.x) - a.y * b.y - a.z * b.z
  {
  }

  lemma InnerDifference(a: Vector3, b: Vector3, c: Vector3, d: Vector3)
    ensures Minus(Inner(a, b), Inner(c, d))
              == (a.x * b.x - c.x * d.x) + (a.y * b.y - c.y * d.y) + (a.z * b.z - c.z * d.z)
  {
  }

  lemma DotTimes(a: real, b: real, c: real, x: real, y: real, z: real)
    ensures Dot3(a, b, c, x, y, z) == Times(a, x) + Times(b, y) + Times(c, z)
  {
  }

  /** A row that is quadratic in `t` against a vector that is linear in `t`. */
  lemma DotAlong(t: real, a: Vector3, m: Vector3, k: Vector3, u: Vector3, w: Vector3)
    ensures Dot3(Poly(a.x, t, m.x, k.x), Poly(a.y, t, m.y, k.y), Poly(a.z, t, m.z, k.z),
                 Minus(u.x, Times(t, w.x)), Minus(u.y, Times(t, w.y)), Minus(u.z, Times(t, w.z)))
         == Cubic(Inner(a, u), t, Minus(Inner(m, u), Inner(a, w)), Minus(Inner(k, u), Inner(m, w)),
                  Negated(Inner(k, w)))
  {
    CubicTerms(t, a.x, m.x, k.x, u.x, w.x);
    CubicTerms(t, a.y, m.y, k.y, u.y, w.y);
    CubicTerms(t, a.z, m.z, k.z, u.z, w.z);
    DotTimes(Poly(a.x, t, m.x, k.x), Poly(a.y, t, m.y, k.y), Poly(a.z, t, m.z, k.z),
             Minus(u.x, Times(t, w.x)), Minus(u.y, Times(t, w.y)), Minus(u.z, Times(t, w.z)));
    InnerSum(a, u);
    InnerSum(k, w);
    InnerDifference(m, u, a, w);
    InnerDifference(k, u, m, w);
    CubicAdds(t, a.x * u.x, m.x * u.x - a.x * w.x, k.x * u.x - m.x * w.x, -(k.x * w.x),
              a.y * u.y, m.y * u.y - a.y * w.y, k.y * u.y - m.y * w.y, -(k.y * w.y),
              a.z * u.z, m.z * u.z - a.z * w.z, k.z * u.z - m.z * w.z, -(k.z * w.z),
              Inner(a, u), Minus(Inner(m, u), Inner(a, w)), Minus(Inner(k, u), Inner(m, w)), Negated(Inner(k, w)));
  }

  // The homogeneous matrix is |q|^2 times an orthogonal one.

  lemma RowNormTerms(w: real, x: real, y: real, z: real)
    ensures (w * w + x * x - y * y - z * z) * (w * w + x * x - y * y - z * z)
              + (2.0 * (x * y) - 2.0 * (w * z)) * (2.0 * (x * y) - 2.0 * (w * z))
              + (2.0 * (z * x) + 2.0 * (w * y)) * (2.0 * (z * x) + 2.0 * (w * y))
         == (w * w + x * x + y * y + z * z) * (w * w + x * x + y * y + z * z)
  {
  }

  lemma RowNorm(w: real, x: real, y: real, z: real, n: real)
    requires n == w * w + x * x + y * y + z * z
    ensures Dot3(HomogeneousDiagonal(w, x, y, z), Upper(x, y, w, z), Lower(z, x, w, y),
                 HomogeneousDiagonal(w, x, y, z), Upper(x, y, w, z), Lower(z, x, w, y)) == Times(n, n)
  {
    RowNormTerms(w, x, y, z);
    assert Times(n, n) == (w * w + x * x + y * y + z * z) * (w * w + x * x + y * y + z * z);
  }

  lemma RowCross(w: real, x: real, y: real, z: real)
    ensures Dot3(HomogeneousDiagonal(w, x, y, z), Upper(x, y, w, z), Lower(z, x, w, y),
                 Lower(x, y, w, z), HomogeneousDiagonal(w, y, z, x), Upper(y, z, w, x)) == 0.0
  {
    calc {
      Dot3(w * w + x * x - y * y - z * z, 2.0 * (x * y) - 2.0 * (w * z), 2.0 * (z * x) + 2.0 * (w * y),
           2.0 * (x * y) + 2.0 * (w * z), w * w + y * y - z * z - x * x, 2.0 * (y * z) - 2.0 * (w * x));
      (w * w + x * x - y * y - z * z) * (2.0 * (x * y) + 2.0 * (w * z))
        + (2.0 * (x * y) - 2.0 * (w * z)) * (w * w + y * y - z * z - x * x)
        + (2.0 * (z * x) + 2.0 * (w * y)) * (2.0 * (y * z) - 2.0 * (w * x));
      0.0;
    }
  }

  lemma Dot3Swap(a: real, b: real, c: real, x: real, y: real, z: real)
    ensures Dot3(a, b, c, x, y, z) == Dot3(x, y, z, a, b, c)
  {
  }

  lemma HomogeneousRows01(q: Quaternion)
    ensures Inner(HomogeneousRow(q, 0), HomogeneousRow(q, 0)) == Times(NormSquared(q), NormSquared(q))
    ensures Inner(HomogeneousRow(q, 0), HomogeneousRow(q, 1)) == 0.0
  {
    RowNorm(q.w, q.x, q.y, q.z, NormSquared(q));
    RowCross(q.w, q.x, q.y, q.z);
  }

  function Next(i: int): int {
    if i == 2 then 0 else i + 1
  }

  /** Renaming the axes moves each row one place down and one place along. */
  lemma CycleRows(q: Quaternion, i: int, j: int)
    requires 0 <= i < 3 && 0 <= j < 3
    ensures Inner(HomogeneousRow(Cycle(q), i), HomogeneousRow(Cycle(q), j))
         == Inner(HomogeneousRow(q, Next(i)), HomogeneousRow(q, Next(j)))
  {
    var a, b := HomogeneousRow(q, Next(i)), HomogeneousRow(q, Next(j));
    Dot3Rotate(a.x, a.y, a.z, b.x, b.y, b.z);
    assert HomogeneousRow(Cycle(q), i) == Vector3(a.y, a.z, a.x);
    assert HomogeneousRow(Cycle(q), j) == Vector3(b.y, b.z, b.x);
  }

  /** Rows of the homogeneous matrix are orthogonal, each of squared length |q|^4. */
  lemma HomogeneousRowsOrthogonal(q: Quaternion, i: int, j: int)
    requires 0 <= i <= j < 3
    ensures Inner(HomogeneousRow(q, i), HomogeneousRow(q, j))
              == if i == j then Times(NormSquared(q), NormSquared(q)) else 0.0
  {
    HomogeneousRows01(q);
    HomogeneousRows01(Cycle(q));
    HomogeneousRows01(Cycle(Cycle(q)));
    assert NormSquared(Cycle(q)) == NormSquared(q) && NormSquared(Cycle(Cycle(q))) == NormSquared(q);
    CycleRows(q, 0, 0);
    CycleRows(q, 0, 1);
    CycleRows(Cycle(q), 0, 0);
    CycleRows(Cycle(q), 0, 1);
    CycleRows(q, 1, 1);
    CycleRows(q, 1, 2);
    var a, b := HomogeneousRow(q, 2), HomogeneousRow(q, 0);
    Dot3Swap(a.x, a.y, a.z, b.x, b.y, b.z);
  }

  /** The columns of the matrix of `q` are the rows of the matrix of its conjugate. */
  lemma ConjugateTransposes(q: Quaternion, j: int)
    requires 0 <= j < 3
    ensures HomogeneousColumn(q, j) == HomogeneousRow(Conjugate(q), j)
    ensures NormSquared(Conjugate(q)) == NormSquared(q)
  {
  }
}
