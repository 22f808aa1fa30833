/**
 The low-pass filter over whole runs. The quadratic form `y1^2 + a1 y1 y2 + a2 y2^2` of the last
 two outputs shrinks by exactly `a2` with every zero input, so it measures how far the filter is
 from rest.
 */
module BiquadRuns {
  import opened Biquad
  import opened Reals

  function Form(a1: real, a2: real, u: real, v: real): real {
    u * u + a1 * u * v + a2 * v * v
  }

  /** The energy of the difference between the last two outputs and `x`, as a function of the memory. */
  function Energy(c: Coefficients, x: real): Memory -> real {
    (m: Memory) => Form(c.a1, c.a2, m.y1 - x, m.y2 - x)
  }

  function Apply1(c: Coefficients, m: Memory, x: real): Memory {
    Shift(m, x, Output(c, m, x))
  }

  /** The memory after the inputs `xs`; its `y1` is the last output. */
  function Run(c: Coefficients, m: Memory, xs: seq<real>): Memory {
    if xs == [] then m else Apply1(c, Run(c, m, xs[..|xs| - 1]), xs[|xs| - 1])
  }

  /** The outputs of a run. */
  function Outputs(c: Coefficients, m: Memory, xs: seq<real>): (ys: seq<real>)
    ensures |ys| == |xs|
  {
    if xs == [] then [] else
      Outputs(c, m, xs[..|xs| - 1]) + [Output(c, Run(c, m, xs[..|xs| - 1]), xs[|xs| - 1])]
  }

  /** Element `i` of a sequence that goes on before its start, with `newest` and then `older`. */
  function Since(s: seq<real>, newest: real, older: real, i: int): real
    requires -2 <= i < |s|
  {
    if i >= 0 then s[i] else if i == -1 then newest else older
  }

  /** The memory after a run is the last two inputs and outputs, on from those it started with. */
  lemma {:induction false} RunRemembers(c: Coefficients, m: Memory, xs: seq<real>)
    ensures var ys, n := Outputs(c, m, xs), |xs|;
            Run(c, m, xs) == Memory(Since(xs, m.x1, m.x2, n - 1), Since(xs, m.x1, m.x2, n - 2),
                                    Since(ys, m.y1, m.y2, n - 1), Since(ys, m.y1, m.y2, n - 2))
  {
    if xs != [] {
      RunRemembers(c, m, xs[..|xs| - 1]);
    }
  }

  lemma {:induction false} OutputsSplit(c: Coefficients, m: Memory, xs: seq<real>, k: nat)
    requires k <= |xs|
    ensures Outputs(c, m, xs)[..k] == Outputs(c, m, xs[..k])
  {
    if k < |xs| {
      OutputsSplit(c, m, xs[..|xs| - 1], k);
      assert xs[..|xs| - 1][..k] == xs[..k];
    } else {
      assert xs[..k] == xs;
    }
  }

  lemma OutputAt(c: Coefficients, m: Memory, xs: seq<real>, k: nat)
    requires k < |xs|
    ensures Outputs(c, m, xs)[k] == Output(c, Run(c, m, xs[..k]), xs[k])
  {
    OutputsSplit(c, m, xs, k + 1);
    assert xs[..k + 1][..k] == xs[..k];
    assert Outputs(c, m, xs)[k] == Outputs(c, m, xs)[..k + 1][k];
  }

  lemma OutputIs(c: Coefficients, m: Memory, x: real, y: real, x1: real, x2: real, y1: real, y2: real)
    requires y == Output(c, m, x) && m == Memory(x1, x2, y1, y2)
    ensures Solves(c, y, x, x1, x2, y1, y2)
  {
  }

  /** The difference equation, for an output, the input of the same call and those of the two calls before. */
  ghost predicate Solves(c: Coefficients, y: real, x: real, x1: real, x2: real, y1: real, y2: real) {
    y == c.b0 * x + c.b1 * x1 + c.b2 * x2 - c.a1 * y1 - c.a2 * y2
  }

  /** Every output of a run satisfies the difference equation on the inputs and outputs before it. */
  lemma DifferenceEquation(c: Coefficients, m: Memory, xs: seq<real>, k: nat)
    requires k < |xs|
    ensures var ys := Outputs(c, m, xs);
            Solves(c, ys[k], xs[k], Since(xs, m.x1, m.x2, k - 1), Since(xs, m.x1, m.x2, k - 2),
                   Since(ys, m.y1, m.y2, k - 1), Since(ys, m.y1, m.y2, k - 2))
  {
    var ys := Outputs(c, m, xs);
    OutputAt(c, m, xs, k);
    OutputsSplit(c, m, xs, k);
    RunRemembers(c, m, xs[..k]);
    OutputIs(c, Run(c, m, xs[..k]), xs[k], ys[k], Since(xs, m.x1, m.x2, k - 1), Since(xs, m.x1, m.x2, k - 2),
             Since(ys, m.y1, m.y2, k - 1), Since(ys, m.y1, m.y2, k - 2));
  }

  function Pow(r: real, n: nat): real {
    if n == 0 then 1.0 else r * Pow(r, n - 1)
  }

  function Repeat(x: real, n: nat): seq<real> {
    seq(n, _ => x)
  }

  lemma FormDecays(a1: real, a2: real, u: real, v: real, e: real)
    requires e == -a1 * u - a2 * v
    ensures Form(a1, a2, e, u) == a2 * Form(a1, a2, u, v)
  {
    calc {
      Form(a1, a2, e, u);
      (-a1 * u - a2 * v) * (-a1 * u - a2 * v) + a1 * (-a1 * u - a2 * v) * u + a2 * u * u;
      a2 * (u * u + a1 * u * v + a2 * v * v);
    }
  }

  // Constant input.

  /** Both remembered inputs are the constant that keeps coming. */
  ghost predicate Settled(m: Memory, x: real) {
    m.x1 == x && m.x2 == x
  }

  lemma ErrorStep(b0: real, b1: real, b2: real, a1: real, a2: real, x: real, u: real, v: real)
    requires b0 + b1 + b2 == 1.0 + a1 + a2
    ensures b0 * x + b1 * x + b2 * x - a1 * u - a2 * v - x == -a1 * (u - x) - a2 * (v - x)
  {
    assert b0 * x + b1 * x + b2 * x == (1.0 + a1 + a2) * x;
  }

  ghost predicate ChangesBy(energy: Memory -> real, r: real, before: Memory, after: Memory) {
    energy(after) == r * energy(before)
  }

  lemma SettledStep(c: Coefficients, m: Memory, x: real)
    requires Stable(c) && Settled(m, x)
    ensures Settled(Apply1(c, m, x), x)
    ensures ChangesBy(Energy(c, x), c.a2, m, Apply1(c, m, x))
  {
    ErrorStep(c.b0, c.b1, c.b2, c.a1, c.a2, x, m.y1, m.y2);
    FormDecays(c.a1, c.a2, m.y1 - x, m.y2 - x, Output(c, m, x) - x);
  }

  /** The memory after each number of calls with the same input. */
  function Trace(c: Coefficients, m: Memory, x: real): nat -> Memory {
    (n: nat) => Run(c, m, Repeat(x, n))
  }

  lemma TraceStep(c: Coefficients, m: Memory, x: real, n: nat)
    ensures Trace(c, m, x)(n + 1) == Apply1(c, Trace(c, m, x)(n), x)
  {
    assert Repeat(x, n + 1)[..n] == Repeat(x, n);
  }

  lemma {:induction false} SettledStays(c: Coefficients, m: Memory, x: real, n: nat)
    requires Settled(m, x)
    ensures Settled(Trace(c, m, x)(n), x)
  {
    if n > 0 {
      SettledStays(c, m, x, n - 1);
      TraceStep(c, m, x, n - 1);
    } else {
      assert Repeat(x, 0) == [];
    }
  }

  /** The energy along a sequence of memories. */
  function Along(energy: Memory -> real, trace: nat -> Memory): nat -> real {
    (n: nat) => energy(trace(n))
  }

  ghost predicate StepsBy(energy: Memory -> real, trace: nat -> Memory, r: real) {
    forall k: nat :: ChangesBy(energy, r, trace(k), trace(k + 1))
  }

  ghost predicate IsGeometric(e: nat -> real, r: real) {
    forall n: nat :: e(n) == Pow(r, n) * e(0)
  }

  lemma Regroup(a: real, b: real, e: real)
    ensures a * (b * e) == a * b * e
  {
  }

  lemma {:induction false} GeometricAt(energy: Memory -> real, trace: nat -> Memory, r: real, n: nat)
    requires StepsBy(energy, trace, r)
    ensures energy(trace(n)) == Pow(r, n) * energy(trace(0))
  {
    if n > 0 {
      GeometricAt(energy, trace, r, n - 1);
      assert ChangesBy(energy, r, trace(n - 1), trace(n - 1 + 1));
      Regroup(r, Pow(r, n - 1), energy(trace(0)));
    }
  }

  lemma StepsMakeGeometric(energy: Memory -> real, trace: nat -> Memory, r: real)
    requires StepsBy(energy, trace, r)
    ensures IsGeometric(Along(energy, trace), r)
  {
    forall n: nat
      ensures Along(energy, trace)(n) == Pow(r, n) * Along(energy, trace)(0)
    {
      GeometricAt(energy, trace, r, n);
    }
  }

  /** The error energy after each number of calls with the same input. */
  function Errors(c: Coefficients, m: Memory, x: real): nat -> real {
    Along(Energy(c, x), Trace(c, m, x))
  }

  lemma ErrorsStepBy(c: Coefficients, m: Memory, x: real)
    requires Stable(c) && Settled(m, x)
    ensures StepsBy(Energy(c, x), Trace(c, m, x), c.a2)
  {
    forall k: nat
      ensures ChangesBy(Energy(c, x), c.a2, Trace(c, m, x)(k), Trace(c, m, x)(k + 1))
    {
      SettledStays(c, m, x, k);
      TraceStep(c, m, x, k);
      SettledStep(c, Trace(c, m, x)(k), x);
    }
  }

  /** After `n` calls with the same input the error energy is exactly `a2^n` times what it was. */
  lemma ErrorShrinks(c: Coefficients, m: Memory, x: real)
    requires Stable(c) && Settled(m, x)
    ensures IsGeometric(Errors(c, m, x), c.a2)
  {
    ErrorsStepBy(c, m, x);
    StepsMakeGeometric(Energy(c, x), Trace(c, m, x), c.a2);
  }

  /** The energy bounds the newest output. */
  lemma FormBounds(a1: real, a2: real, u: real, v: real)
    ensures (4.0 * a2 - a1 * a1) * Sq(u) <= 4.0 * a2 * Form(a1, a2, u, v)
  {
    var z := a1 * u + 2.0 * a2 * v;
    SquareNonNegative(z);
    SquareCompletes(a1, a2, u, v, z);
  }

  lemma SquareCompletes(a1: real, a2: real, u: real, v: real, z: real)
    requires z == a1 * u + 2.0 * a2 * v
    ensures 4.0 * a2 * (u * u + a1 * u * v + a2 * v * v) == (4.0 * a2 - a1 * a1) * (u * u) + z * z
  {
    calc {
      (4.0 * a2 - a1 * a1) * (u * u) + z * z;
      (4.0 * a2 - a1 * a1) * (u * u) + (a1 * u + 2.0 * a2 * v) * (a1 * u + 2.0 * a2 * v);
      4.0 * a2 * (u * u + a1 * u * v + a2 * v * v);
    }
  }

  /** A power shrinks at least as fast as the reciprocal of its exponent. */
  lemma {:induction false} PowShrinks(r: real, n: nat)
    requires 0.0 < r < 1.0
    ensures 0.0 < Pow(r, n) && Pow(r, n) * (1.0 + n as real * (1.0 - r)) <= 1.0
  {
    if n > 0 {
      PowShrinks(r, n - 1);
      PowStep(r, Pow(r, n - 1), (n - 1) as real);
    }
  }

  lemma PowStep(r: real, p: real, k: real)
    requires 0.0 < r < 1.0 && 0.0 < p && k >= 0.0 && p * (1.0 + k * (1.0 - r)) <= 1.0
    ensures 0.0 < r * p && r * p * (1.0 + (k + 1.0) * (1.0 - r)) <= 1.0
  {
    var q := 1.0 - r;
    Positive(r, p, r * p);
    SquareNonNegative(q);
    StepSplits(r, p, k, q);
    ProductNonNegative(k + 1.0, q * q);
    ProductNonNegative(p, (k + 1.0) * (q * q));
  }

  lemma StepSplits(r: real, p: real, k: real, q: real)
    requires q == 1.0 - r
    ensures r * p * (1.0 + (k + 1.0) * q) == p * (1.0 + k * q) - p * ((k + 1.0) * (q * q))
  {
    calc {
      r * p * (1.0 + (k + 1.0) * q);
      (1.0 - q) * p * (1.0 + (k + 1.0) * q);
      p * (1.0 + k * q) - p * ((k + 1.0) * (q * q));
    }
  }

  lemma Reciprocal(b: real) returns (t: real)
    requires b > 0.0
    ensures t > 0.0 && t * b == 1.0
  {
    t := 1.0 / b;
  }

  /** Some power is below any positive bound, and so are all later ones. */
  lemma PowVanishes(r: real, bound: real) returns (n: nat)
    requires 0.0 < r < 1.0 && bound > 0.0
    ensures forall k: nat :: k >= n ==> Pow(r, k) < bound
  {
    var q := 1.0 - r;
    Positive(bound, q, bound * q);
    var t := Reciprocal(bound * q);
    n := t.Floor + 1;
    forall k: nat | k >= n
      ensures Pow(r, k) < bound
    {
      PowShrinks(r, k);
      BelowBound(Pow(r, k), k as real, q, bound, t);
    }
  }

  lemma BelowBound(p: real, k: real, q: real, bound: real, t: real)
    requires 0.0 < p && p * (1.0 + k * q) <= 1.0 && 0.0 < q && 0.0 < bound && t * (bound * q) == 1.0 && 0.0 < t <= k
    ensures p < bound
  {
    if p >= bound {
      GrowsPast(p, k, q, bound, t);
    }
  }

  lemma GrowsPast(p: real, k: real, q: real, bound: real, t: real)
    requires 0.0 < q && 0.0 < bound <= p && t * (bound * q) == 1.0 && 0.0 < t <= k
    ensures p * (1.0 + k * q) > 1.0
  {
    Positive(bound, q, bound * q);
    ProductNonNegative(k - t, bound * q);
    assert (k - t) * (bound * q) == k * (bound * q) - t * (bound * q);
    assert k * (bound * q) >= 1.0;
    Positive(k, q, k * q);
    ProductNonNegative(p - bound, k * q);
    assert (p - bound) * (k * q) == p * (k * q) - bound * (k * q);
    assert bound * (k * q) == k * (bound * q);
    assert p * (1.0 + k * q) == p + p * (k * q);
  }

  lemma ScaleUp(d: real, a: real, b: real)
    requires d >= 0.0 && a >= b
    ensures d * a >= d * b
  {
    ProductNonNegative(d, a - b);
    assert d * (a - b) == d * a - d * b;
  }

  lemma CloseEnough(a2: real, d: real, uu: real, p: real, e: real, w: real, bound: real, eps: real)
    requires 0.0 < a2 && 0.0 < d && 0.0 < p < bound && e <= w && 0.0 < w
    requires d * uu <= 4.0 * a2 * (p * e)
    requires bound * (4.0 * (a2 * w)) == d * eps
    ensures uu < eps
  {
    ScaleUp(p, w, e);
    ScaleUp(a2, p * w, p * e);
    Positive(a2, w, a2 * w);
    LessTimes(p, bound, a2 * w);
    assert p * (a2 * w) == a2 * (p * w);
    assert bound * (4.0 * (a2 * w)) == 4.0 * (bound * (a2 * w));
    assert 4.0 * a2 * (p * e) == 4.0 * (a2 * (p * e));
    if uu >= eps {
      ScaleUp(d, uu, eps);
    }
  }

  /** A power this small makes the error small. */
  lemma SmallPower(a2: real, d: real, w: real, eps: real) returns (bound: real)
    requires 0.0 < a2 && 0.0 < d && 0.0 < w && 0.0 < eps
    ensures bound > 0.0 && bound * (4.0 * (a2 * w)) == d * eps
  {
    Positive(a2, w, a2 * w);
    var t := Reciprocal(4.0 * (a2 * w));
    Positive(d, eps, d * eps);
    bound := d * eps * t;
    Positive(d * eps, t, bound);
    assert bound * (4.0 * (a2 * w)) == d * eps * (t * (4.0 * (a2 * w)));
  }

  /** Multiples of one sequence stay below multiples of another. */
  ghost predicate Dominates(e: nat -> real, k: real, f: nat -> real, d: real) {
    forall n: nat :: d * f(n) <= k * e(n)
  }

  /** From some index on, all elements are below `eps`. */
  ghost predicate FallsBelow(f: nat -> real, eps: real) {
    exists n: nat :: StaysBelow(f, n, eps)
  }

  ghost predicate StaysBelow(f: nat -> real, n: nat, eps: real) {
    forall k: nat :: k >= n ==> f(k) < eps
  }

  lemma Vanishes(e: nat -> real, f: nat -> real, r: real, d: real, eps: real)
    requires 0.0 < r < 1.0 && 0.0 < d && 0.0 < eps
    requires IsGeometric(e, r) && Dominates(e, 4.0 * r, f, d)
    ensures FallsBelow(f, eps)
  {
    var w := if e(0) > 0.0 then e(0) else 1.0;
    var bound := SmallPower(r, d, w, eps);
    var n := PowVanishes(r, bound);
    forall k: nat | k >= n
      ensures f(k) < eps
    {
      PowShrinks(r, k);
      assert e(k) == Pow(r, k) * e(0);
      CloseEnough(r, d, f(k), Pow(r, k), e(0), w, bound, eps);
    }
    assert StaysBelow(f, n, eps);
  }

  /** The squared distance of the newest output from `x`. */
  function Distance(x: real): Memory -> real {
    (m: Memory) => Sq(m.y1 - x)
  }

  /** That distance after each number of calls with input `x`. */
  function Distances(c: Coefficients, m: Memory, x: real): nat -> real {
    Along(Distance(x), Trace(c, m, x))
  }

  ghost predicate Covers(energy: Memory -> real, k: real, distance: Memory -> real, d: real, m: Memory) {
    d * distance(m) <= k * energy(m)
  }

  ghost predicate CoversAll(energy: Memory -> real, k: real, distance: Memory -> real, d: real) {
    forall m: Memory :: Covers(energy, k, distance, d, m)
  }

  lemma EnergyCovers(c: Coefficients, x: real, m: Memory)
    ensures Covers(Energy(c, x), 4.0 * c.a2, Distance(x), Gap(c), m)
  {
    FormBounds(c.a1, c.a2, m.y1 - x, m.y2 - x);
  }

  lemma CoversAlong(energy: Memory -> real, k: real, distance: Memory -> real, d: real, trace: nat -> Memory)
    requires CoversAll(energy, k, distance, d)
    ensures Dominates(Along(energy, trace), k, Along(distance, trace), d)
  {
    forall n: nat
      ensures d * Along(distance, trace)(n) <= k * Along(energy, trace)(n)
    {
      assert Covers(energy, k, distance, d, trace(n));
    }
  }

  lemma ErrorsDominate(c: Coefficients, m: Memory, x: real)
    ensures Dominates(Errors(c, m, x), 4.0 * c.a2, Distances(c, m, x), Gap(c))
  {
    var e, k, f, d := Energy(c, x), 4.0 * c.a2, Distance(x), Gap(c);
    forall any: Memory
      ensures Covers(e, k, f, d, any)
    {
      EnergyCovers(c, x, any);
    }
    CoversAlong(e, k, f, d, Trace(c, m, x));
  }

  lemma SettledConverges(c: Coefficients, m: Memory, x: real, eps: real)
    requires Stable(c) && Settled(m, x) && eps > 0.0
    ensures FallsBelow(Distances(c, m, x), eps)
  {
    ErrorShrinks(c, m, x);
    ErrorsDominate(c, m, x);
    Vanishes(Errors(c, m, x), Distances(c, m, x), c.a2, Gap(c), eps);
  }

  /** Two calls with the same input settle the filter; the trace goes on from there. */
  lemma {:induction false} TraceAfterTwo(c: Coefficients, m: Memory, x: real, n: nat)
    ensures Settled(Trace(c, m, x)(2), x)
    ensures Trace(c, m, x)(n + 2) == Trace(c, Trace(c, m, x)(2), x)(n)
  {
    var two := Trace(c, m, x)(2);
    TraceStep(c, m, x, 0);
    TraceStep(c, m, x, 1);
    if n == 0 {
      assert Repeat(x, 0) == [];
    } else {
      TraceAfterTwo(c, m, x, n - 1);
      TraceStep(c, m, x, n + 1);
      TraceStep(c, two, x, n - 1);
    }
  }

  /** An element of one sequence is an earlier element of another. */
  lemma ShiftedFallsBelow(f: nat -> real, g: nat -> real, eps: real)
    requires forall n: nat :: f(n + 2) == g(n)
    requires FallsBelow(g, eps)
    ensures FallsBelow(f, eps)
  {
    var n: nat :| StaysBelow(g, n, eps);
    forall k: nat | k >= n + 2
      ensures f(k) < eps
    {
      assert f(k - 2 + 2) == g(k - 2);
    }
    assert StaysBelow(f, n + 2, eps);
  }

  lemma DistancesShift(c: Coefficients, m: Memory, x: real, two: Memory)
    requires two == Trace(c, m, x)(2)
    ensures forall n: nat :: Distances(c, m, x)(n + 2) == Distances(c, two, x)(n)
  {
    forall n: nat
      ensures Distances(c, m, x)(n + 2) == Distances(c, two, x)(n)
    {
      TraceAfterTwo(c, m, x, n);
    }
  }

  /** The output converges to a constant input, from every state of the filter. */
  lemma Converges(c: Coefficients, m: Memory, x: real, eps: real)
    requires Stable(c) && eps > 0.0
    ensures FallsBelow(Distances(c, m, x), eps)
  {
    var two := Trace(c, m, x)(2);
    TraceAfterTwo(c, m, x, 0);
    SettledConverges(c, two, x, eps);
    DistancesShift(c, m, x, two);
    ShiftedFallsBelow(Distances(c, m, x), Distances(c, two, x), eps);
  }

  // Bounded input.

  lemma AmGm(p: real, a2: real, w: real, z: real)
    ensures 8.0 * a2 * (p * (w * z)) <= (p * p) * (z * z) + 16.0 * (a2 * a2) * (w * w)
  {
    var t := p * z - 4.0 * a2 * w;
    SquareNonNegative(t);
    assert t * t == (p * p) * (z * z) - 8.0 * a2 * (p * (w * z)) + 16.0 * (a2 * a2) * (w * w);
  }

  lemma DrivenForm(a1: real, a2: real, u: real, v: real, w: real, e: real, z: real)
    requires e == -a1 * u - a2 * v + w && z == -a1 * u - 2.0 * a2 * v
    ensures Form(a1, a2, e, u) == a2 * Form(a1, a2, u, v) + w * z + w * w
  {
    calc {
      Form(a1, a2, e, u);
      (-a1 * u - a2 * v + w) * (-a1 * u - a2 * v + w) + a1 * (-a1 * u - a2 * v + w) * u + a2 * u * u;
      a2 * (u * u + a1 * u * v + a2 * v * v) + w * (-a1 * u - 2.0 * a2 * v) + w * w;
    }
  }

  lemma CompletedSquare(a1: real, a2: real, u: real, v: real, z: real)
    requires z == -a1 * u - 2.0 * a2 * v && 4.0 * a2 - a1 * a1 > 0.0
    ensures z * z <= 4.0 * a2 * Form(a1, a2, u, v)
  {
    SquareCompletes(a1, a2, u, v, -z);
    SquareNonNegative(u);
    ProductNonNegative(4.0 * a2 - a1 * a1, u * u);
    assert -z * -z == z * z;
  }

  /** The cross term of the driven form, bounded by the form and the drive. */
  lemma CrossTerm(a2: real, p: real, f: real, w: real, z: real)
    requires 0.0 < a2 && z * z <= 4.0 * a2 * f
    ensures p * (w * z) <= 0.5 * (p * p) * f + 2.0 * a2 * (w * w)
  {
    AmGm(p, a2, w, z);
    SquareNonNegative(p);
    ScaleUp(p * p, 4.0 * a2 * f, z * z);
    var y := 0.5 * (p * p) * f + 2.0 * a2 * (w * w);
    assert 8.0 * a2 * y == (p * p) * (4.0 * a2 * f) + 16.0 * (a2 * a2) * (w * w);
    DivideOut(8.0 * a2, p * (w * z), y);
  }

  lemma Collect(a2: real, p: real, h: real, k: real, f: real, ww: real)
    requires p == 1.0 - a2 && h == 0.5 * (1.0 + a2) && k == 1.0 + a2
    ensures p * (a2 * f) + (0.5 * (p * p) * f + 2.0 * a2 * ww) + p * ww == p * (h * f) + k * ww
  {
  }

  lemma Distribute3(p: real, a: real, b: real, c: real, s: real)
    requires s == a + b + c
    ensures p * s == p * a + p * b + p * c
  {
  }

  /** The next value `g` of the form contracts towards a multiple of the square of the drive. */
  lemma Contract(a2: real, p: real, h: real, k: real, f: real, g: real, w: real, z: real, ww: real)
    requires 0.0 < a2 && p == 1.0 - a2 && h == 0.5 * (1.0 + a2) && k == 1.0 + a2 && ww == w * w
    requires g == a2 * f + w * z + ww && z * z <= 4.0 * a2 * f
    ensures p * g <= p * (h * f) + k * ww
  {
    CrossTerm(a2, p, f, w, z);
    Collect(a2, p, h, k, f, ww);
    Distribute3(p, a2 * f, w * z, ww, g);
  }

  lemma LevelSplits(p: real, h: real, l: real)
    requires h + 0.5 * p == 1.0
    ensures p * (h * l) + 0.5 * (p * p) * l == p * l
  {
    assert p * (h * l) + 0.5 * (p * p) * l == p * ((h + 0.5 * p) * l);
  }

  /** A level `l` high enough for drives up to `bb` is never left upwards. */
  lemma StaysUnder(p: real, h: real, k: real, f: real, g: real, ww: real, bb: real, l: real)
    requires 0.0 < p && 0.0 < h && 0.0 < k && h + 0.5 * p == 1.0
    requires p * g <= p * (h * f) + k * ww && f <= l && ww <= bb && k * bb <= 0.5 * (p * p) * l
    ensures g <= l
  {
    ScaleUp(h, l, f);
    ScaleUp(p, h * l, h * f);
    ScaleUp(k, bb, ww);
    LevelSplits(p, h, l);
    DivideOut(p, g, l);
  }

  lemma DrivenParts(a1: real, a2: real, u: real, v: real, w: real, e: real) returns (z: real)
    requires 4.0 * a2 - a1 * a1 > 0.0 && e == -a1 * u - a2 * v + w
    ensures Form(a1, a2, e, u) == a2 * Form(a1, a2, u, v) + w * z + w * w
    ensures z * z <= 4.0 * a2 * Form(a1, a2, u, v)
  {
    z := -a1 * u - 2.0 * a2 * v;
    DrivenForm(a1, a2, u, v, w, e, z);
    CompletedSquare(a1, a2, u, v, z);
  }

  ghost predicate Under(a1: real, a2: real, u: real, v: real, l: real) {
    Form(a1, a2, u, v) <= l
  }

  ghost predicate DrivenTo(a1: real, a2: real, u: real, v: real, w: real, e: real) {
    e == -a1 * u - a2 * v + w
  }

  ghost predicate SquareAtMost(w: real, bb: real) {
    w * w <= bb
  }

  /** Level `l` is high enough for drives whose square is at most `bb`. */
  ghost predicate HighFor(a2: real, bb: real, l: real) {
    (1.0 + a2) * bb <= 0.5 * ((1.0 - a2) * (1.0 - a2)) * l
  }

  /** One call with drive `w`: the energy contracts, and a high enough level is kept. */
  lemma DrivenEnergy(a1: real, a2: real, u: real, v: real, w: real, e: real, bb: real, l: real)
    requires 0.0 < a2 < 1.0 && 4.0 * a2 - a1 * a1 > 0.0 && DrivenTo(a1, a2, u, v, w, e)
    requires Under(a1, a2, u, v, l) && SquareAtMost(w, bb) && HighFor(a2, bb, l)
    ensures Under(a1, a2, e, u, l)
  {
    var z := DrivenParts(a1, a2, u, v, w, e);
    LevelKept(a2, 1.0 - a2, 0.5 * (1.0 + a2), 1.0 + a2, Form(a1, a2, u, v), Form(a1, a2, e, u), w, z, w * w, bb, l);
  }

  lemma LevelKept(a2: real, p: real, h: real, k: real, f: real, g: real, w: real, z: real, ww: real, bb: real, l: real)
    requires 0.0 < a2 < 1.0 && p == 1.0 - a2 && h == 0.5 * (1.0 + a2) && k == 1.0 + a2 && ww == w * w
    requires g == a2 * f + w * z + ww && z * z <= 4.0 * a2 * f
    requires f <= l && ww <= bb && k * bb <= 0.5 * (p * p) * l
    ensures g <= l
  {
    Contract(a2, p, h, k, f, g, w, z, ww);
    StaysUnder(p, h, k, f, g, ww, bb, l);
  }

  ghost predicate Within(x: real, bound: real) {
    -bound <= x <= bound
  }

  /** The remembered inputs are within `M` and the energy of the outputs is at most `l`. */
  ghost predicate Bounded(c: Coefficients, m: Memory, M: real, l: real) {
    Within(m.x1, M) && Within(m.x2, M) && Under(c.a1, c.a2, m.y1, m.y2, l)
  }

  /** What the inputs add to an output. */
  function Drive(c: Coefficients, x: real, x1: real, x2: real): real {
    c.b0 * x + c.b1 * x1 + c.b2 * x2
  }

  /** No inputs within `M` add more than `bb` in square. */
  ghost predicate LimitsDrive(c: Coefficients, M: real, bb: real) {
    forall x, x1, x2 :: Within(x, M) && Within(x1, M) && Within(x2, M) ==> SquareAtMost(Drive(c, x, x1, x2), bb)
  }

  lemma ScaledWithin(b: real, x: real, M: real)
    requires 0.0 < b && Within(x, M)
    ensures Within(b * x, b * M)
  {
    ScaleUp(b, M, x);
    ScaleUp(b, x, -M);
    assert b * -M == -(b * M);
  }

  lemma SquareWithin(w: real, b: real)
    requires Within(w, b)
    ensures w * w <= b * b
  {
    ProductNonNegative(b - w, b + w);
    assert (b - w) * (b + w) == b * b - w * w;
  }

  lemma SumWithin(p: real, q: real, r: real, a: real, b: real, c: real, w: real, t: real)
    requires Within(p, a) && Within(q, b) && Within(r, c) && w == p + q + r && t == a + b + c
    ensures SquareAtMost(w, Sq(t))
  {
    SquareWithin(w, t);
  }

  lemma ThreeScaled(b0: real, b1: real, b2: real, x: real, x1: real, x2: real, M: real, w: real, t: real)
    requires 0.0 < b0 && 0.0 < b1 && 0.0 < b2
    requires Within(x, M) && Within(x1, M) && Within(x2, M)
    requires w == b0 * x + b1 * x1 + b2 * x2 && t == b0 * M + b1 * M + b2 * M
    ensures SquareAtMost(w, Sq(t))
  {
    ScaledWithin(b0, x, M);
    ScaledWithin(b1, x1, M);
    ScaledWithin(b2, x2, M);
    SumWithin(b0 * x, b1 * x1, b2 * x2, b0 * M, b1 * M, b2 * M, w, t);
  }

  lemma GainLimitsDrive(c: Coefficients, M: real, t: real)
    requires 0.0 < c.b0 && 0.0 < c.b1 && 0.0 < c.b2 && t == c.b0 * M + c.b1 * M + c.b2 * M
    ensures LimitsDrive(c, M, Sq(t))
  {
    forall x, x1, x2 | Within(x, M) && Within(x1, M) && Within(x2, M)
      ensures SquareAtMost(Drive(c, x, x1, x2), Sq(t))
    {
      ThreeScaled(c.b0, c.b1, c.b2, x, x1, x2, M, Drive(c, x, x1, x2), t);
    }
  }

  lemma OutputIsDriven(c: Coefficients, m: Memory, x: real)
    ensures DrivenTo(c.a1, c.a2, m.y1, m.y2, Drive(c, x, m.x1, m.x2), Output(c, m, x))
  {
  }

  lemma CallIsDriven(c: Coefficients, m: Memory, x: real, M: real, bb: real) returns (w: real, e: real)
    requires LimitsDrive(c, M, bb) && Within(x, M) && Within(m.x1, M) && Within(m.x2, M)
    ensures DrivenTo(c.a1, c.a2, m.y1, m.y2, w, e) && SquareAtMost(w, bb)
    ensures Apply1(c, m, x) == Shift(m, x, e)
  {
    w, e := Drive(c, x, m.x1, m.x2), Output(c, m, x);
    OutputIsDriven(c, m, x);
  }

  /** A call whose drive is at most `bb` in square does not take the energy above `l`. */
  ghost predicate KeepsLevel(c: Coefficients, bb: real, l: real) {
    forall u, v, w, e :: DrivenTo(c.a1, c.a2, u, v, w, e) && Under(c.a1, c.a2, u, v, l) && SquareAtMost(w, bb) ==>
      Under(c.a1, c.a2, e, u, l)
  }

  lemma LevelIsKept(c: Coefficients, bb: real, l: real)
    requires Stable(c) && HighFor(c.a2, bb, l)
    ensures KeepsLevel(c, bb, l)
  {
    forall u, v, w, e | DrivenTo(c.a1, c.a2, u, v, w, e) && Under(c.a1, c.a2, u, v, l) && SquareAtMost(w, bb)
      ensures Under(c.a1, c.a2, e, u, l)
    {
      DrivenEnergy(c.a1, c.a2, u, v, w, e, bb, l);
    }
  }

  lemma CallKeepsBounded(c: Coefficients, m: Memory, x: real, M: real, bb: real, l: real)
    requires Bounded(c, m, M, l) && Within(x, M) && LimitsDrive(c, M, bb) && KeepsLevel(c, bb, l)
    ensures Bounded(c, Apply1(c, m, x), M, l)
  {
    var w, e := CallIsDriven(c, m, x, M, bb);
  }

  lemma {:induction false} BoundedOverRun(c: Coefficients, m: Memory, xs: seq<real>, M: real, bb: real, l: real)
    requires Bounded(c, m, M, l) && LimitsDrive(c, M, bb) && KeepsLevel(c, bb, l)
    requires forall i :: 0 <= i < |xs| ==> Within(xs[i], M)
    ensures Bounded(c, Run(c, m, xs), M, l)
  {
    if xs != [] {
      var before := xs[..|xs| - 1];
      BoundedOverRun(c, m, before, M, bb, l);
      CallKeepsBounded(c, Run(c, m, before), xs[|xs| - 1], M, bb, l);
    }
  }

  /** Over every run with inputs within `M` the energy stays at or below a level that is high enough. */
  lemma RunStaysBounded(c: Coefficients, m: Memory, xs: seq<real>, M: real, bb: real, l: real)
    requires Stable(c) && Bounded(c, m, M, l) && LimitsDrive(c, M, bb) && HighFor(c.a2, bb, l)
    requires forall i :: 0 <= i < |xs| ==> Within(xs[i], M)
    ensures Bounded(c, Run(c, m, xs), M, l)
  {
    LevelIsKept(c, bb, l);
    BoundedOverRun(c, m, xs, M, bb, l);
  }

  // The level and the output bound for the Butterworth coefficients.

  lemma OnePlusOrMinus(sk: real, kk: real, n: real)
    requires (1.0 + sk + kk) * n == 1.0
    ensures 1.0 + (1.0 - sk + kk) * n == 2.0 * (1.0 + kk) * n
    ensures 1.0 - (1.0 - sk + kk) * n == 2.0 * sk * n
  {
  }

  lemma LevelBalances(p: real, k: real, t: real, l: real, s: real, K: real, kk: real, n: real, M: real, ss: real)
    requires p == 2.0 * (s * K) * n && k == 2.0 * (1.0 + kk) * n && t == 4.0 * kk * n * M
    requires kk == K * K && ss == s * s && l * ss == 16.0 * (1.0 + kk) * kk * (M * M) * n
    ensures k * (t * t) == 0.5 * (p * p) * l
  {
    calc {
      0.5 * (p * p) * l;
      0.5 * ((2.0 * (s * K) * n) * (2.0 * (s * K) * n)) * l;
      2.0 * kk * (n * n) * (l * ss);
      2.0 * kk * (n * n) * (16.0 * (1.0 + kk) * kk * (M * M) * n);
      (2.0 * (1.0 + kk) * n) * ((4.0 * kk * n * M) * (4.0 * kk * n * M));
    }
  }

  /** The energy that inputs within `M` cannot push the filter above, for norm `n`. */
  ghost predicate Threshold(K: real, s: real, M: real, n: real, l: real) {
    l * (s * s) == 16.0 * (1.0 + K * K) * (K * K) * (M * M) * n
  }

  /** The most that inputs within `M` can add to an output. */
  function Peak(K: real, s: real, M: real): real
    requires 0.0 < s < 2.0
  {
    4.0 * (K * K) * Norm(K, s) * M
  }

  lemma Balanced(a2: real, t: real, l: real, p: real, k: real)
    requires p == 1.0 - a2 && k == 1.0 + a2 && k * (t * t) == 0.5 * (p * p) * l
    ensures HighFor(a2, Sq(t), l)
  {
  }

  lemma HighEnough(s: real, K: real, n: real, M: real, a2: real, t: real, l: real)
    requires (1.0 + s * K + K * K) * n == 1.0 && a2 == (1.0 - s * K + K * K) * n && t == 4.0 * (K * K) * n * M
    requires Threshold(K, s, M, n, l)
    ensures HighFor(a2, Sq(t), l)
  {
    var p, k := 2.0 * (s * K) * n, 2.0 * (1.0 + K * K) * n;
    OnePlusOrMinus(s * K, K * K, n);
    LevelBalances(p, k, t, l, s, K, K * K, n, M, s * s);
    Balanced(a2, t, l, p, k);
  }

  lemma ThresholdIsHighEnough(K: real, s: real, M: real, l: real)
    requires K > 0.0 && 0.0 < s < 2.0 && Threshold(K, s, M, Norm(K, s), l)
    ensures HighFor(Butterworth(K, s).a2, Sq(Peak(K, s, M)), l)
  {
    var n := Norm(K, s);
    HighEnough(s, K, n, M, Butterworth(K, s).a2, Peak(K, s, M), l);
  }

  lemma PeakLimitsDrive(K: real, s: real, M: real)
    requires K > 0.0 && 0.0 < s < 2.0
    ensures LimitsDrive(Butterworth(K, s), M, Sq(Peak(K, s, M)))
  {
    PositiveGain(K, K * K, Norm(K, s), Butterworth(K, s).b0);
    SumOfGains(K * K * Norm(K, s), M);
    GainLimitsDrive(Butterworth(K, s), M, Peak(K, s, M));
  }

  lemma SumOfGains(b: real, M: real)
    ensures b * M + 2.0 * b * M + b * M == 4.0 * b * M
  {
  }

  /** The square of the output `y` over that of the input bound, in terms of the cutoff alone. */
  ghost predicate OutputWithin(kk: real, ss: real, u: real, MM: real, y: real) {
    Sq(y) * (ss * (4.0 - ss)) <= 16.0 * (1.0 + kk) * u * MM
  }

  lemma OutputFromLevel(gap: real, a2: real, yy: real, l: real, ss: real, kk: real, n: real, nn: real, u: real,
                        MM: real, out: real)
    requires yy == Sq(out)
    requires gap == 4.0 * kk * (4.0 - ss) * nn && a2 == u * n && nn == n * n && gap * yy <= 4.0 * a2 * l
    requires 0.0 < ss && 0.0 < kk && 0.0 < nn && l * ss == 16.0 * (1.0 + kk) * kk * MM * n
    ensures OutputWithin(kk, ss, u, MM, out)
  {
    var x, y := yy * (ss * (4.0 - ss)), 16.0 * (1.0 + kk) * u * MM;
    ScaleUp(ss, 4.0 * a2 * l, gap * yy);
    assert ss * (gap * yy) == (4.0 * kk * nn) * x;
    assert ss * (4.0 * a2 * l) == 4.0 * (u * n) * (l * ss);
    assert 4.0 * (u * n) * (16.0 * (1.0 + kk) * kk * MM * n) == (4.0 * kk * nn) * y;
    Positive(4.0 * kk, nn, 4.0 * kk * nn);
    DivideOut(4.0 * kk * nn, x, y);
  }

  lemma LevelBoundsOutput(a1: real, a2: real, u: real, v: real, l: real)
    requires 0.0 < a2 && Under(a1, a2, u, v, l)
    ensures (4.0 * a2 - a1 * a1) * Sq(u) <= 4.0 * a2 * l
  {
    FormBounds(a1, a2, u, v);
    ScaleUp(4.0 * a2, l, Form(a1, a2, u, v));
  }

  lemma PositiveSquare(x: real) returns (xx: real)
    requires x > 0.0
    ensures xx == x * x && xx > 0.0
  {
    xx := x * x;
    Positive(x, x, xx);
  }

  ghost predicate GapIs(gap: real, K: real, s: real, n: real) {
    gap == 4.0 * (K * K) * (4.0 - s * s) * (n * n)
  }

  ghost predicate LevelCovers(gap: real, a2: real, y: real, l: real) {
    gap * Sq(y) <= 4.0 * a2 * l
  }

  lemma GapValue(K: real, s: real, n: real)
    requires K > 0.0 && 0.0 < s < 2.0 && n == Norm(K, s)
    ensures GapIs(Gap(Butterworth(K, s)), K, s, n)
  {
    Discriminant(K, s, n, Denominator(K, s));
  }

  lemma OutputFromCutoff(gap: real, a2: real, l: real, K: real, s: real, n: real, u: real, M: real, out: real)
    requires K > 0.0 && s > 0.0 && n > 0.0 && a2 == u * n
    requires GapIs(gap, K, s, n) && LevelCovers(gap, a2, out, l) && Threshold(K, s, M, n, l)
    ensures OutputWithin(K * K, s * s, u, M * M, out)
  {
    var kk := PositiveSquare(K);
    var ss := PositiveSquare(s);
    var nn := PositiveSquare(n);
    OutputFromLevel(gap, a2, Sq(out), l, ss, kk, n, nn, u, M * M, out);
  }

  lemma BoundedIsCovered(K: real, s: real, m: Memory, M: real, l: real)
    requires K > 0.0 && 0.0 < s < 2.0 && Bounded(Butterworth(K, s), m, M, l)
    ensures LevelCovers(Gap(Butterworth(K, s)), Butterworth(K, s).a2, m.y1, l)
  {
    ButterworthIsStable(K, s);
    LevelBoundsOutput(Butterworth(K, s).a1, Butterworth(K, s).a2, m.y1, m.y2, l);
  }

  lemma BoundedFacts(K: real, s: real, m: Memory, M: real, l: real) returns (gap: real, a2: real, n: real, u: real)
    requires K > 0.0 && 0.0 < s < 2.0 && Threshold(K, s, M, Norm(K, s), l) && Bounded(Butterworth(K, s), m, M, l)
    ensures n > 0.0 && a2 == u * n && u == Numerator(K, s)
    ensures GapIs(gap, K, s, n) && LevelCovers(gap, a2, m.y1, l) && Threshold(K, s, M, n, l)
  {
    gap, a2, n, u := Gap(Butterworth(K, s)), Butterworth(K, s).a2, Norm(K, s), Numerator(K, s);
    BoundedIsCovered(K, s, m, M, l);
    GapValue(K, s, n);
  }

  lemma BoundedOutput(K: real, s: real, m: Memory, M: real, l: real)
    requires K > 0.0 && 0.0 < s < 2.0 && Threshold(K, s, M, Norm(K, s), l) && Bounded(Butterworth(K, s), m, M, l)
    ensures OutputWithin(K * K, s * s, Numerator(K, s), M * M, m.y1)
  {
    var gap, a2, n, u := BoundedFacts(K, s, m, M, l);
    OutputFromCutoff(gap, a2, l, K, s, n, u, M, m.y1);
  }

  /**
   Over every run with inputs within `M` whose energy starts at or below the threshold, every
   output stays within a bound that depends on the cutoff and on `M` alone.
   */
  lemma OutputsStayBounded(K: real, s: real, m: Memory, xs: seq<real>, M: real, l: real)
    requires K > 0.0 && 0.0 < s < 2.0 && Threshold(K, s, M, Norm(K, s), l) && Bounded(Butterworth(K, s), m, M, l)
    requires forall i :: 0 <= i < |xs| ==> Within(xs[i], M)
    ensures OutputWithin(K * K, s * s, Numerator(K, s), M * M, Run(Butterworth(K, s), m, xs).y1)
  {
    ButterworthIsStable(K, s);
    ThresholdIsHighEnough(K, s, M, l);
    PeakLimitsDrive(K, s, M);
    RunStaysBounded(Butterworth(K, s), m, xs, M, Sq(Peak(K, s, M)), l);
    BoundedOutput(K, s, Run(Butterworth(K, s), m, xs), M, l);
  }

  const AT_REST := Memory(0.0, 0.0, 0.0, 0.0)

  lemma ThresholdExists(K: real, s: real, M: real) returns (l: real)
    requires K > 0.0 && 0.0 < s < 2.0
    ensures Threshold(K, s, M, Norm(K, s), l) && l >= 0.0
  {
    var n := Norm(K, s);
    var kk := PositiveSquare(K);
    var ss := PositiveSquare(s);
    var t := Reciprocal(ss);
    var r := 16.0 * (1.0 + kk) * kk * (M * M) * n;
    SquareNonNegative(M);
    Positive(16.0 * (1.0 + kk), kk, 16.0 * (1.0 + kk) * kk);
    ProductNonNegative(16.0 * (1.0 + kk) * kk, M * M);
    ProductNonNegative(16.0 * (1.0 + kk) * kk * (M * M), n);
    l := r * t;
    ProductNonNegative(r, t);
    assert l * ss == r * (t * ss);
  }

  /** A new filter keeps within that bound whatever inputs within `M` it is given. */
  lemma NewFilterStaysBounded(K: real, s: real, xs: seq<real>, M: real)
    requires K > 0.0 && 0.0 < s < 2.0 && 0.0 <= M
    requires forall i :: 0 <= i < |xs| ==> Within(xs[i], M)
    ensures OutputWithin(K * K, s * s, Numerator(K, s), M * M, Run(Butterworth(K, s), AT_REST, xs).y1)
  {
    var l := ThresholdExists(K, s, M);
    AtRestIsBounded(Butterworth(K, s), M, l);
    OutputsStayBounded(K, s, AT_REST, xs, M, l);
  }

  lemma AtRestIsBounded(c: Coefficients, M: real, l: real)
    requires 0.0 <= M && 0.0 <= l
    ensures Bounded(c, AT_REST, M, l)
  {
  }
}
