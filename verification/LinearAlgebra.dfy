/**
 Finite sums, matrix products and quadratic forms over the reals: the vocabulary in
 which the covariance step is specified.

 A vector is a function of an index and a matrix a function of a row and a column; the
 dimension is passed where it matters, and only indices below it are ever read.
 */
module LinearAlgebra {
  import opened Reals

  type Vec = int -> real
  type Mat = (int, int) -> real

  ghost function Sum(n: nat, f: Vec): real {
    if n == 0 then 0.0 else Sum(n - 1, f) + f(n - 1)
  }

  /** The (i, j) entry of `a * b`, where `m` is the inner dimension. */
  ghost function Mul(m: nat, a: Mat, b: Mat): Mat {
    (i, j) => Sum(m, k => a(i, k) * b(k, j))
  }

  ghost function Transpose(a: Mat): Mat {
    (i, j) => a(j, i)
  }

  ghost function Add(a: Mat, b: Mat): Mat {
    (i, j) => a(i, j) + b(i, j)
  }

  ghost function Diagonal(d: Vec): Mat {
    (i, j) => if i == j then d(i) else 0.0
  }

  /** `a * v`, where `m` is the number of columns of `a`. */
  ghost function Apply(m: nat, a: Mat, v: Vec): Vec {
    i => Sum(m, k => a(i, k) * v(k))
  }

  ghost function Dot(n: nat, u: Vec, v: Vec): real {
    Sum(n, k => u(k) * v(k))
  }

  /** `x' * p * x` */
  ghost function Quad(n: nat, p: Mat, x: Vec): real {
    Dot(n, x, Apply(n, p, x))
  }

  /** `a * p * a'`, with `a` having `m` columns. */
  ghost function Congruence(m: nat, a: Mat, p: Mat): Mat {
    Mul(m, Mul(m, a, p), Transpose(a))
  }

  ghost predicate Symmetric(n: nat, p: Mat) {
    forall i, j :: 0 <= i < n && 0 <= j < n ==> p(i, j) == p(j, i)
  }

  ghost predicate PositiveSemidefinite(n: nat, p: Mat) {
    forall x: Vec :: Quad(n, p, x) >= 0.0
  }

  ghost predicate SameEntries(n: nat, m: nat, p: Mat, q: Mat) {
    forall i, j :: 0 <= i < n && 0 <= j < m ==> p(i, j) == q(i, j)
  }

  lemma {:induction false} SumZeroTail(m: nat, n: nat, f: Vec)
    requires m <= n && forall k :: m <= k < n ==> f(k) == 0.0
    ensures Sum(n, f) == Sum(m, f)
  {
    if m < n { SumZeroTail(m, n - 1, f); }
  }

  lemma {:induction false} SumEqual(n: nat, f: Vec, g: Vec)
    requires forall k :: 0 <= k < n ==> f(k) == g(k)
    ensures Sum(n, f) == Sum(n, g)
  {
    if n > 0 { SumEqual(n - 1, f, g); }
  }

  lemma {:induction false} SumAdd(n: nat, f: Vec, g: Vec)
    ensures Sum(n, k => f(k) + g(k)) == Sum(n, f) + Sum(n, g)
  {
    if n > 0 { SumAdd(n - 1, f, g); }
  }

  lemma {:induction false} SumScale(n: nat, c: real, f: Vec)
    ensures Sum(n, k => c * f(k)) == c * Sum(n, f)
  {
    if n > 0 { SumScale(n - 1, c, f); }
  }

  lemma {:induction false} SumNonNegative(n: nat, f: Vec)
    requires forall k :: 0 <= k < n ==> f(k) >= 0.0
    ensures Sum(n, f) >= 0.0
  {
    if n > 0 { SumNonNegative(n - 1, f); }
  }

  lemma {:induction false} SumZero(n: nat, f: Vec)
    requires forall k :: 0 <= k < n ==> f(k) == 0.0
    ensures Sum(n, f) == 0.0
  {
    if n > 0 { SumZero(n - 1, f); }
  }

  /** A sum with at most one non-zero term is that term. */
  lemma {:induction false} SumSingle(n: nat, f: Vec, i: nat)
    requires i < n
    requires forall k :: 0 <= k < n && k != i ==> f(k) == 0.0
    ensures Sum(n, f) == f(i)
  {
    if i == n - 1 {
      SumZero(n - 1, f);
    } else {
      SumSingle(n - 1, f, i);
    }
  }

  ghost function RowSums(m: nat, f: Mat): Vec {
    i => Sum(m, k => f(i, k))
  }

  /** The two orders of summation over an n-by-m table agree. */
  lemma {:induction false} SumSwap(n: nat, m: nat, f: Mat)
    ensures Sum(n, RowSums(m, f)) == Sum(m, RowSums(n, Transpose(f)))
  {
    var columns := RowSums(n, Transpose(f));
    if n == 0 {
      SumZero(m, columns);
    } else {
      var row: Vec := j => f(n - 1, j);
      var shorter := RowSums(n - 1, Transpose(f));
      SumSwap(n - 1, m, f);
      forall j: int ensures columns(j) == shorter(j) + row(j) {
        SumEqual(n - 1, k => Transpose(f)(j, k), k => Transpose(f)(j, k));
      }
      SumAdd(m, shorter, row);
      SumEqual(m, columns, j => shorter(j) + row(j));
    }
  }

  /** The table of products `u(i) * a(i, k) * v(k)`. */
  ghost function Products(u: Vec, a: Mat, v: Vec): Mat {
    (i, k) => u(i) * (a(i, k) * v(k))
  }

  lemma DotApply(n: nat, m: nat, a: Mat, u: Vec, v: Vec)
    ensures Dot(n, u, Apply(m, a, v)) == Sum(n, RowSums(m, Products(u, a, v)))
  {
    forall i: int ensures u(i) * Apply(m, a, v)(i) == RowSums(m, Products(u, a, v))(i) {
      var f: Vec := k => a(i, k) * v(k);
      var g: Vec := k => Products(u, a, v)(i, k);
      SumScale(m, u(i), f);
      forall k: int ensures g(k) == u(i) * f(k) {
        assert Products(u, a, v)(i, k) == u(i) * (a(i, k) * v(k));
      }
      SumEqual(m, g, k => u(i) * f(k));
      SumEqual(m, k => Products(u, a, v)(i, k), g);
      SumEqual(m, k => a(i, k) * v(k), f);
    }
    SumEqual(n, k => u(k) * Apply(m, a, v)(k), RowSums(m, Products(u, a, v)));
  }

  lemma ProductsTransposed(n: nat, m: nat, a: Mat, u: Vec, v: Vec)
    ensures Sum(m, RowSums(n, Transpose(Products(u, a, v)))) == Sum(m, RowSums(n, Products(v, Transpose(a), u)))
  {
    var there := RowSums(n, Transpose(Products(u, a, v)));
    var back := RowSums(n, Products(v, Transpose(a), u));
    forall k: int ensures there(k) == back(k) {
      forall i: int
        ensures Transpose(Products(u, a, v))(k, i) == Products(v, Transpose(a), u)(k, i)
      {
        assert u(i) * (a(i, k) * v(k)) == v(k) * (a(i, k) * u(i));
      }
      SumEqual(n, i => Transpose(Products(u, a, v))(k, i), i => Products(v, Transpose(a), u)(k, i));
    }
    SumEqual(m, there, back);
  }

  /** `u . (a v) == (a' u) . v` for an n-by-m matrix `a`. */
  lemma Adjoint(n: nat, m: nat, a: Mat, u: Vec, v: Vec)
    ensures Dot(n, u, Apply(m, a, v)) == Dot(m, Apply(n, Transpose(a), u), v)
  {
    DotApply(n, m, a, u, v);
    DotApply(m, n, Transpose(a), v, u);
    SumSwap(n, m, Products(u, a, v));
    ProductsTransposed(n, m, a, u, v);
    DotSymmetric(m, v, Apply(n, Transpose(a), u));
  }

  lemma DotSymmetric(n: nat, u: Vec, v: Vec)
    ensures Dot(n, u, v) == Dot(n, v, u)
  {
    SumEqual(n, k => u(k) * v(k), k => v(k) * u(k));
  }

  /** `(a b) v == a (b v)` row by row; `m` and `l` are the column counts of `a` and `b`. */
  lemma ApplyMul(m: nat, l: nat, a: Mat, b: Mat, v: Vec, i: int)
    ensures Apply(l, Mul(m, a, b), v)(i) == Apply(m, a, Apply(l, b, v))(i)
  {
    Adjoint(m, l, b, Row(a, i), v);
    SumEqual(m, k => Row(a, i)(k) * Apply(l, b, v)(k), k => a(i, k) * Apply(l, b, v)(k));
    MulRow(m, a, b, i);
    SumEqual(l, j => Apply(m, Transpose(b), Row(a, i))(j) * v(j), j => Mul(m, a, b)(i, j) * v(j));
  }

  ghost function Row(a: Mat, i: int): Vec {
    k => a(i, k)
  }

  lemma ApplyIsDot(m: nat, a: Mat, v: Vec, i: int)
    ensures Apply(m, a, v)(i) == Dot(m, Row(a, i), v)
  {
    var f: Vec := k => a(i, k) * v(k);
    var g: Vec := k => Row(a, i)(k) * v(k);
    forall k: int ensures f(k) == g(k) {
      assert Row(a, i)(k) == a(i, k);
    }
    SumEqual(m, f, g);
  }

  /** Row i of `a b` is `b'` applied to row i of `a`. */
  lemma MulRow(m: nat, a: Mat, b: Mat, i: int)
    ensures forall j :: Apply(m, Transpose(b), Row(a, i))(j) == Mul(m, a, b)(i, j)
  {
    forall j: int ensures Apply(m, Transpose(b), Row(a, i))(j) == Mul(m, a, b)(i, j) {
      var f: Vec := k => Transpose(b)(j, k) * Row(a, i)(k);
      var g: Vec := k => a(i, k) * b(k, j);
      forall k: int ensures f(k) == g(k) {
        assert Transpose(b)(j, k) == b(k, j);
        assert Row(a, i)(k) == a(i, k);
        assert b(k, j) * a(i, k) == a(i, k) * b(k, j);
      }
      SumEqual(m, f, g);
    }
  }

  lemma DotEqual(n: nat, u: Vec, v: Vec, w: Vec)
    requires forall k :: 0 <= k < n ==> v(k) == w(k)
    ensures Dot(n, u, v) == Dot(n, u, w)
  {
    SumEqual(n, k => u(k) * v(k), k => u(k) * w(k));
  }

  lemma QuadEqual(n: nat, p: Mat, q: Mat, x: Vec)
    requires SameEntries(n, n, p, q)
    ensures Quad(n, p, x) == Quad(n, q, x)
  {
    forall i | 0 <= i < n ensures Apply(n, p, x)(i) == Apply(n, q, x)(i) {
      SumEqual(n, k => p(i, k) * x(k), k => q(i, k) * x(k));
    }
    DotEqual(n, x, Apply(n, p, x), Apply(n, q, x));
  }

  lemma ApplyAdd(m: nat, p: Mat, q: Mat, x: Vec, i: int)
    ensures Apply(m, Add(p, q), x)(i) == Apply(m, p, x)(i) + Apply(m, q, x)(i)
  {
    var f: Vec := k => p(i, k) * x(k);
    var g: Vec := k => q(i, k) * x(k);
    var h: Vec := k => Add(p, q)(i, k) * x(k);
    SumAdd(m, f, g);
    forall k: int ensures h(k) == f(k) + g(k) {
      assert (p(i, k) + q(i, k)) * x(k) == p(i, k) * x(k) + q(i, k) * x(k);
    }
    SumEqual(m, h, k => f(k) + g(k));
  }

  lemma DotAdd(n: nat, x: Vec, u: Vec, v: Vec, w: Vec)
    requires forall i :: w(i) == u(i) + v(i)
    ensures Dot(n, x, w) == Dot(n, x, u) + Dot(n, x, v)
  {
    var f: Vec := i => x(i) * u(i);
    var g: Vec := i => x(i) * v(i);
    var h: Vec := i => x(i) * w(i);
    SumAdd(n, f, g);
    forall i: int ensures h(i) == f(i) + g(i) {
      assert x(i) * (u(i) + v(i)) == x(i) * u(i) + x(i) * v(i);
    }
    SumEqual(n, h, i => f(i) + g(i));
  }

  lemma QuadAdd(n: nat, p: Mat, q: Mat, x: Vec)
    ensures Quad(n, Add(p, q), x) == Quad(n, p, x) + Quad(n, q, x)
  {
    forall i: int ensures Apply(n, Add(p, q), x)(i) == Apply(n, p, x)(i) + Apply(n, q, x)(i) {
      ApplyAdd(n, p, q, x, i);
    }
    DotAdd(n, x, Apply(n, p, x), Apply(n, q, x), Apply(n, Add(p, q), x));
  }

  /** A congruence only re-parametrises the quadratic form: `x'(a p a')x == (a'x)' p (a'x)`. */
  lemma QuadCongruence(n: nat, m: nat, a: Mat, p: Mat, x: Vec)
    ensures Quad(n, Congruence(m, a, p), x) == Quad(m, p, Apply(n, Transpose(a), x))
  {
    var y := Apply(n, Transpose(a), x);
    forall i: int ensures Apply(n, Congruence(m, a, p), x)(i) == Apply(m, a, Apply(m, p, y))(i) {
      ApplyMul(m, n, Mul(m, a, p), Transpose(a), x, i);
      ApplyMul(m, m, a, p, y, i);
    }
    DotEqual(n, x, Apply(n, Congruence(m, a, p), x), Apply(m, a, Apply(m, p, y)));
    Adjoint(n, m, a, x, Apply(m, p, y));
  }

  lemma CongruencePositive(n: nat, m: nat, a: Mat, p: Mat)
    requires PositiveSemidefinite(m, p)
    ensures PositiveSemidefinite(n, Congruence(m, a, p))
  {
    forall x: Vec ensures Quad(n, Congruence(m, a, p), x) >= 0.0 {
      QuadCongruence(n, m, a, p, x);
    }
  }

  lemma ScaledSquare(d: real, x: real)
    requires d >= 0.0
    ensures x * (d * x) >= 0.0
  {
    assert x * x >= 0.0;
    ProductNonNegative(d, x * x);
    assert x * (d * x) == d * (x * x);
  }

  lemma DiagonalApplied(n: nat, d: Vec, x: Vec, i: nat)
    requires i < n
    ensures Apply(n, Diagonal(d), x)(i) == d(i) * x(i)
  {
    var f: Vec := k => Diagonal(d)(i, k) * x(k);
    forall k | 0 <= k < n && k != i
      ensures f(k) == 0.0
    {
      assert Diagonal(d)(i, k) == 0.0;
      assert f(k) == 0.0 * x(k);
    }
    SumSingle(n, f, i);
  }

  lemma DiagonalPositive(n: nat, d: Vec)
    requires forall k :: 0 <= k < n ==> d(k) >= 0.0
    ensures PositiveSemidefinite(n, Diagonal(d))
  {
    forall x: Vec ensures Quad(n, Diagonal(d), x) >= 0.0 {
      forall i | 0 <= i < n ensures x(i) * Apply(n, Diagonal(d), x)(i) >= 0.0 {
        DiagonalApplied(n, d, x, i);
        ScaledSquare(d(i), x(i));
      }
      SumNonNegative(n, i => x(i) * Apply(n, Diagonal(d), x)(i));
    }
  }

  /** Entry (i, j) of `a p a'` is the form `p` between rows i and j of `a`. */
  lemma CongruenceEntry(m: nat, a: Mat, p: Mat, i: int, j: int)
    ensures Congruence(m, a, p)(i, j) == Dot(m, Row(a, i), Apply(m, p, Row(a, j)))
  {
    MulRow(m, a, p, i);
    var pa := Apply(m, Transpose(p), Row(a, i));
    SumEqual(m, l => Mul(m, a, p)(i, l) * Transpose(a)(l, j), l => pa(l) * Row(a, j)(l));
    Adjoint(m, m, p, Row(a, i), Row(a, j));
  }

  /** `a p a'` is symmetric when `p` is. */
  lemma CongruenceSymmetric(n: nat, m: nat, a: Mat, p: Mat)
    requires Symmetric(m, p)
    ensures Symmetric(n, Congruence(m, a, p))
  {
    forall i, j | 0 <= i < n && 0 <= j < n
      ensures Congruence(m, a, p)(i, j) == Congruence(m, a, p)(j, i)
    {
      CongruenceEntry(m, a, p, i, j);
      CongruenceEntry(m, a, p, j, i);
      FormSymmetric(m, p, Row(a, i), Row(a, j));
    }
  }

  lemma FormSymmetric(m: nat, p: Mat, u: Vec, v: Vec)
    requires Symmetric(m, p)
    ensures Dot(m, u, Apply(m, p, v)) == Dot(m, v, Apply(m, p, u))
  {
    Adjoint(m, m, p, u, v);
    forall k | 0 <= k < m ensures Apply(m, Transpose(p), u)(k) == Apply(m, p, u)(k) {
      SumEqual(m, l => Transpose(p)(k, l) * u(l), l => p(k, l) * u(l));
    }
    DotSymmetric(m, Apply(m, Transpose(p), u), v);
    DotEqual(m, v, Apply(m, Transpose(p), u), Apply(m, p, u));
  }

  /** Entry (i, j) of `a p a'` is row j of `a` applied to row i of `a p`. */
  lemma CongruenceRow(m: nat, a: Mat, p: Mat, i: int, j: int)
    ensures Congruence(m, a, p)(i, j) == Apply(m, a, Row(Mul(m, a, p), i))(j)
  {
    var ap := Mul(m, a, p);
    var f: Vec := l => ap(i, l) * Transpose(a)(l, j);
    var g: Vec := k => a(j, k) * Row(ap, i)(k);
    forall k: int ensures f(k) == g(k) {
      assert Transpose(a)(k, j) == a(j, k);
      assert Row(ap, i)(k) == ap(i, k);
      assert ap(i, k) * a(j, k) == a(j, k) * ap(i, k);
    }
    SumEqual(m, f, g);
  }

  lemma MulDiagonal(m: nat, g: Mat, q: Vec, i: int, l: int)
    requires 0 <= l < m
    ensures Mul(m, g, Diagonal(q))(i, l) == g(i, l) * q(l)
  {
    var f: Vec := k => g(i, k) * Diagonal(q)(k, l);
    forall k: int | k != l ensures f(k) == 0.0 {
      assert Diagonal(q)(k, l) == 0.0;
      assert g(i, k) * 0.0 == 0.0;
    }
    SumSingle(m, f, l);
    SumEqual(m, k => g(i, k) * Diagonal(q)(k, l), f);
  }

  /** The sum of two congruences of symmetric matrices is symmetric. */
  lemma CongruenceSumSymmetric(n: nat, m: nat, a: Mat, p: Mat, l: nat, g: Mat, q: Mat)
    requires Symmetric(m, p) && Symmetric(l, q)
    ensures Symmetric(n, Add(Congruence(m, a, p), Congruence(l, g, q)))
  {
    CongruenceSymmetric(n, m, a, p);
    CongruenceSymmetric(n, l, g, q);
  }

  /** The sum of two congruences of positive semidefinite matrices is positive semidefinite. */
  lemma CongruenceSumPositive(n: nat, m: nat, a: Mat, p: Mat, l: nat, g: Mat, q: Mat)
    requires PositiveSemidefinite(m, p) && PositiveSemidefinite(l, q)
    ensures PositiveSemidefinite(n, Add(Congruence(m, a, p), Congruence(l, g, q)))
  {
    CongruencePositive(n, m, a, p);
    CongruencePositive(n, l, g, q);
    forall x: Vec ensures Quad(n, Add(Congruence(m, a, p), Congruence(l, g, q)), x) >= 0.0 {
      QuadAdd(n, Congruence(m, a, p), Congruence(l, g, q), x);
    }
  }

  lemma DiagonalSymmetric(n: nat, d: Vec)
    ensures Symmetric(n, Diagonal(d))
  {
  }
}
