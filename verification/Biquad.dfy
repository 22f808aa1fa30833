/**
 The second-order low-pass filter over the reals. `K` stands for the tangent of the prewarped
 cutoff, positive when the cutoff lies strictly between 0 and half the sampling rate; `s` stands
 for the square root of two, of which only `0 < s < 2` is used.
 */
module Biquad {
  import opened Reals

  datatype Coefficients = Coefficients(b0: real, b1: real, b2: real, a1: real, a2: real)

  /** The last two inputs and the last two outputs, newest first. */
  datatype Memory = Memory(x1: real, x2: real, y1: real, y2: real)

  function Output(c: Coefficients, m: Memory, x: real): real {
    c.b0 * x + c.b1 * m.x1 + c.b2 * m.x2 - c.a1 * m.y1 - c.a2 * m.y2
  }

  /** Nothing put in, nothing given out. */
  const REST := Memory(0.0, 0.0, 0.0, 0.0)

  /** The `k`-th element from the end, 0 before the first. */
  function Back(s: seq<real>, k: nat): real {
    if 1 <= k <= |s| then s[|s| - k] else 0.0
  }

  function Shift(m: Memory, x: real, y: real): Memory {
    Memory(x, m.x1, y, m.y1)
  }

  function Denominator(K: real, s: real): real {
    1.0 + s * K + K * K
  }

  function Numerator(K: real, s: real): real {
    1.0 - s * K + K * K
  }

  /** A positive square plus what is left of 1, for a sign `h` of half the constant. */
  lemma CompletesSquare(K: real, h: real)
    ensures 1.0 + 2.0 * h * K + K * K == Sq(K + h) + (1.0 - h * h)
  {
  }

  lemma SquareBelowOne(h: real)
    requires -1.0 < h < 1.0
    ensures h * h < 1.0
  {
    Positive(1.0 - h, 1.0 + h, (1.0 - h) * (1.0 + h));
    assert (1.0 - h) * (1.0 + h) == 1.0 - h * h;
  }

  /** The common factor; its denominator has no real zero. */
  function Norm(K: real, s: real): (n: real)
    requires 0.0 < s < 2.0
    ensures n > 0.0 && Denominator(K, s) * n == 1.0
  {
    CompletesSquare(K, 0.5 * s);
    SquareBelowOne(0.5 * s);
    SquareNonNegative(K + 0.5 * s);
    1.0 / Denominator(K, s)
  }

  function Butterworth(K: real, s: real): Coefficients
    requires 0.0 < s < 2.0
  {
    var norm := Norm(K, s);
    var b0 := K * K * norm;
    Coefficients(b0, 2.0 * b0, b0, 2.0 * (K * K - 1.0) * norm, Numerator(K, s) * norm)
  }

  class BiquadFilter {
    var b0: real
    var b1: real
    var b2: real
    var a1: real
    var a2: real
    var x1: real
    var x2: real
    var y1: real
    var y2: real
    ghost var inputs: seq<real>
    ghost var outputs: seq<real>

    /** The fields remember the last two inputs and outputs of all calls since construction. */
    ghost predicate Valid()
      reads this
    {
      History() == Memory(Back(inputs, 1), Back(inputs, 2), Back(outputs, 1), Back(outputs, 2))
    }

    ghost function Coeffs(): Coefficients
      reads this
    {
      Coefficients(b0, b1, b2, a1, a2)
    }

    ghost function History(): Memory
      reads this
    {
      Memory(x1, x2, y1, y2)
    }

    constructor ()
      ensures Valid() && inputs == [] && outputs == []
      ensures History() == REST
    {
      x1, x2, y1, y2 := 0.0, 0.0, 0.0, 0.0;
      inputs, outputs := [], [];
    }

    method SetCoefficients(b0: real, b1: real, b2: real, a1: real, a2: real)
      modifies this`b0, this`b1, this`b2, this`a1, this`a2
      ensures Coeffs() == Coefficients(b0, b1, b2, a1, a2)
      ensures History() == old(History())
    {
      this.b0, this.b1, this.b2 := b0, b1, b2;
      this.a1, this.a2 := a1, a2;
    }

    /** Takes sampling rate, cutoff, and the tangent, pi and square root of two it computes with. */
    method ComputeButterworth(fs: real, fc: real, tan: real -> real, pi: real, s: real)
      requires fs != 0.0 && 0.0 < s < 2.0
      modifies this`b0, this`b1, this`b2, this`a1, this`a2
      ensures Coeffs() == Butterworth(tan(pi * fc / fs), s)
      ensures Stable(Coeffs()) <==> tan(pi * fc / fs) > 0.0
      ensures History() == old(History())
    {
      var K := tan(pi * fc / fs);
      ButterworthIsStable(K, s);
      assert 1.0 + s * K + K * K == Denominator(K, s);
      assert Denominator(K, s) * Norm(K, s) == 1.0;
      var norm := 1.0 / (1.0 + s * K + K * K);
      b0 := K * K * norm;
      b1 := 2.0 * b0;
      b2 := b0;
      a1 := 2.0 * (K * K - 1.0) * norm;
      a2 := (1.0 - s * K + K * K) * norm;
    }

    /** The difference equation on all inputs and outputs so far, which are 0 before the first. */
    method Apply(x: real) returns (y: real)
      requires Valid()
      modifies this`x1, this`x2, this`y1, this`y2, this`inputs, this`outputs
      ensures Valid() && inputs == old(inputs) + [x] && outputs == old(outputs) + [y]
      ensures y == b0 * x + b1 * Back(old(inputs), 1) + b2 * Back(old(inputs), 2)
                   - a1 * Back(old(outputs), 1) - a2 * Back(old(outputs), 2)
      ensures y == Output(old(Coeffs()), old(History()), x)
      ensures History() == Shift(old(History()), x, y)
      ensures Coeffs() == old(Coeffs())
    {
      y := b0 * x + b1 * x1 + b2 * x2 - a1 * y1 - a2 * y2;
      x2 := x1;
      x1 := x;
      y2 := y1;
      y1 := y;
      inputs, outputs := inputs + [x], outputs + [y];
    }
  }

  // The coefficients.

  /** Positive when the poles are complex. */
  function Gap(c: Coefficients): real {
    4.0 * c.a2 - c.a1 * c.a1
  }

  /** Stable complex poles and unit gain at rest. */
  ghost predicate Stable(c: Coefficients) {
    && 0.0 < c.a2 < 1.0
    && Gap(c) > 0.0
    && c.b0 + c.b1 + c.b2 == 1.0 + c.a1 + c.a2
    && 0.0 < c.b0 && 0.0 < c.b1 && 0.0 < c.b2
  }

  lemma ShiftedSquare(K: real)
    ensures K * K - 2.0 * K + 1.0 >= 0.0
  {
    SquareNonNegative(K - 1.0);
    assert (K - 1.0) * (K - 1.0) == K * K - 2.0 * K + 1.0;
  }

  lemma Discriminant(K: real, s: real, n: real, d: real)
    requires d == 1.0 + s * K + K * K && d * n == 1.0
    ensures 4.0 * ((1.0 - s * K + K * K) * n) - (2.0 * (K * K - 1.0) * n) * (2.0 * (K * K - 1.0) * n)
         == 4.0 * (K * K) * (4.0 - s * s) * (n * n)
  {
    var u := 1.0 - s * K + K * K;
    calc {
      4.0 * (u * n) - (2.0 * (K * K - 1.0) * n) * (2.0 * (K * K - 1.0) * n);
      4.0 * (u * n) * (n * d) - (2.0 * (K * K - 1.0) * n) * (2.0 * (K * K - 1.0) * n);
      4.0 * (u * d - (K * K - 1.0) * (K * K - 1.0)) * (n * n);
      { assert u * d - (K * K - 1.0) * (K * K - 1.0) == (K * K) * (4.0 - s * s); }
      4.0 * ((K * K) * (4.0 - s * s)) * (n * n);
    }
  }

  lemma GainAtRest(K: real, s: real, n: real, d: real)
    requires d == 1.0 + s * K + K * K && d * n == 1.0
    ensures K * K * n + 2.0 * (K * K * n) + K * K * n == 1.0 + 2.0 * (K * K - 1.0) * n + (1.0 - s * K + K * K) * n
  {
    calc {
      1.0 + 2.0 * (K * K - 1.0) * n + (1.0 - s * K + K * K) * n;
      d * n + 2.0 * (K * K - 1.0) * n + (1.0 - s * K + K * K) * n;
      n * (1.0 + s * K + K * K) + 2.0 * (K * K - 1.0) * n + (1.0 - s * K + K * K) * n;
      4.0 * (K * K * n);
    }
  }

  lemma FractionBounds(u: real, d: real, n: real, un: real, dn: real)
    requires un == u * n && dn == d * n
    requires 0.0 < u < d && n > 0.0
    ensures 0.0 < un < dn
  {
    Positive(u, n, un);
    LessTimes(u, d, n);
  }

  lemma SquareBelowFour(s: real)
    requires 0.0 < s < 2.0
    ensures 4.0 - s * s > 0.0
  {
    Positive(2.0 - s, 2.0 + s, (2.0 - s) * (2.0 + s));
    assert (2.0 - s) * (2.0 + s) == 4.0 - s * s;
  }

  lemma ProductPositive(K: real, kk: real, t: real, n: real, nn: real, kt: real, p: real)
    requires kk == K * K && nn == n * n && kt == (4.0 * kk) * t && p == kt * nn
    requires K > 0.0 && t > 0.0 && n > 0.0
    ensures p > 0.0
  {
    Positive(K, K, kk);
    Positive(n, n, nn);
    Positive(4.0 * kk, t, kt);
    Positive(kt, nn, p);
  }

  lemma ComplexPoles(K: real, s: real)
    requires K > 0.0 && 0.0 < s < 2.0
    ensures Gap(Butterworth(K, s)) > 0.0
  {
    var n, t := Norm(K, s), 4.0 - s * s;
    SquareBelowFour(s);
    Discriminant(K, s, n, Denominator(K, s));
    ProductPositive(K, K * K, t, n, n * n, (4.0 * (K * K)) * t, ((4.0 * (K * K)) * t) * (n * n));
  }

  lemma UnitGain(K: real, s: real)
    requires K > 0.0 && 0.0 < s < 2.0
    ensures var c := Butterworth(K, s);
            c.b0 + c.b1 + c.b2 == 1.0 + c.a1 + c.a2
  {
    GainAtRest(K, s, Norm(K, s), Denominator(K, s));
  }

  lemma PositiveGain(K: real, kk: real, n: real, b: real)
    requires kk == K * K && b == kk * n && K > 0.0 && n > 0.0
    ensures b > 0.0
  {
    Positive(K, K, kk);
    Positive(kk, n, b);
  }

  lemma StableForPositive(K: real, s: real)
    requires K > 0.0 && 0.0 < s < 2.0
    ensures Stable(Butterworth(K, s))
  {
    var u, d, n := Numerator(K, s), Denominator(K, s), Norm(K, s);
    assert 0.0 < Butterworth(K, s).a2 < 1.0 by {
      assert 0.0 < u < d by {
        Positive(s, K, s * K);
        LessTimes(s, 2.0, K);
        ShiftedSquare(K);
      }
      FractionBounds(u, d, n, u * n, d * n);
    }
    ComplexPoles(K, s);
    UnitGain(K, s);
    PositiveGain(K, K * K, Norm(K, s), Butterworth(K, s).b0);
  }

  lemma FractionAtLeastOne(u: real, d: real, n: real)
    requires d <= u && n > 0.0 && d * n == 1.0
    ensures u * n >= 1.0
  {
    ProductNonNegative(u - d, n);
    assert (u - d) * n == u * n - d * n;
  }

  /** The filter is stable exactly when the tangent is positive. */
  lemma ButterworthIsStable(K: real, s: real)
    requires 0.0 < s < 2.0
    ensures K > 0.0 ==> Stable(Butterworth(K, s))
    ensures Stable(Butterworth(K, s)) ==> K > 0.0
  {
    if K > 0.0 {
      StableForPositive(K, s);
    } else {
      ProductNonNegative(s, -K);
      assert s * -K == -(s * K);
      FractionAtLeastOne(Numerator(K, s), Denominator(K, s), Norm(K, s));
    }
  }

  function NumeratorAt(c: Coefficients, z: real): real {
    c.b0 + c.b1 * z + c.b2 * (z * z)
  }

  function DenominatorAt(c: Coefficients, z: real): real {
    1.0 + c.a1 * z + c.a2 * (z * z)
  }

  /** `K*K` times `p*p + s*p + 1` at `p = (1 - z) / (K * (1 + z))`, times the square of `1 + z`. */
  function AnalogPoles(K: real, s: real, z: real): real {
    (1.0 - z) * (1.0 - z) + s * K * (1.0 - z * z) + AnalogGain(K, z)
  }

  function AnalogGain(K: real, z: real): real {
    K * K * (1.0 + z) * (1.0 + z)
  }

  /** Multiplied by `d` the coefficients are those the source divides by it. */
  ghost predicate ScaledUp(c: Coefficients, K: real, s: real, d: real) {
    && c.b0 * d == K * K && c.b1 * d == 2.0 * (K * K) && c.b2 * d == K * K
    && c.a1 * d == 2.0 * (K * K - 1.0) && c.a2 * d == 1.0 - s * K + K * K
  }

  lemma NumeratorExpands(K: real, z: real, d: real, c: Coefficients)
    requires c.b0 * d == K * K && c.b1 * d == 2.0 * (K * K) && c.b2 * d == K * K
    ensures NumeratorAt(c, z) * d == AnalogGain(K, z)
  {
    calc {
      (c.b0 + c.b1 * z + c.b2 * (z * z)) * d;
      c.b0 * d + (c.b1 * d) * z + (c.b2 * d) * (z * z);
      K * K + 2.0 * (K * K) * z + K * K * (z * z);
      K * K * (1.0 + z) * (1.0 + z);
    }
  }

  lemma DenominatorExpands(K: real, s: real, z: real, d: real, c: Coefficients)
    requires d == 1.0 + s * K + K * K
    requires c.a1 * d == 2.0 * (K * K - 1.0) && c.a2 * d == 1.0 - s * K + K * K
    ensures DenominatorAt(c, z) * d == AnalogPoles(K, s, z)
  {
    calc {
      (1.0 + c.a1 * z + c.a2 * (z * z)) * d;
      d + (c.a1 * d) * z + (c.a2 * d) * (z * z);
      1.0 + s * K + K * K + 2.0 * (K * K - 1.0) * z + (1.0 - s * K + K * K) * (z * z);
      (1.0 - z) * (1.0 - z) + s * K * (1.0 - z * z) + K * K * (1.0 + z) * (1.0 + z);
    }
  }

  lemma ScaledBack(k: real, n: real, d: real, b: real)
    requires d * n == 1.0 && b == k * n
    ensures b * d == k
  {
    assert k * n * d == k * (d * n);
  }

  lemma ReciprocalIsPositive(d: real, n: real)
    requires d * n == 1.0 && n > 0.0
    ensures d > 0.0
  {
    if d <= 0.0 {
      ProductNonNegative(-d, n);
    }
  }

  lemma DividedIsScaledUp(c: Coefficients, K: real, s: real, n: real, d: real)
    requires d * n == 1.0
    requires c.b0 == K * K * n && c.b1 == 2.0 * c.b0 && c.b2 == c.b0
    requires c.a1 == 2.0 * (K * K - 1.0) * n && c.a2 == (1.0 - s * K + K * K) * n
    ensures ScaledUp(c, K, s, d)
  {
    ScaledBack(K * K, n, d, c.b0);
    ScaledBack(2.0 * (K * K - 1.0), n, d, c.a1);
    ScaledBack(1.0 - s * K + K * K, n, d, c.a2);
  }

  /**
   At `z`, numerator and denominator are those of `1 / (p*p + s*p + 1)` with `p = (1 - z) / (K * (1 + z))`,
   up to the common factor that makes the denominator 1 at `z = 0`.
   */
  ghost predicate BilinearAt(c: Coefficients, K: real, s: real, z: real) {
    && NumeratorAt(c, z) * Denominator(K, s) == AnalogGain(K, z)
    && DenominatorAt(c, z) * Denominator(K, s) == AnalogPoles(K, s, z)
  }

  lemma ScaledUpIsBilinear(c: Coefficients, K: real, s: real, z: real)
    requires ScaledUp(c, K, s, Denominator(K, s))
    ensures BilinearAt(c, K, s, z)
  {
    NumeratorExpands(K, z, Denominator(K, s), c);
    DenominatorExpands(K, s, z, Denominator(K, s), c);
  }

  lemma SameScaled(x: real, y: real, d: real)
    requires d > 0.0 && x * d == y * d
    ensures x == y
  {
    DivideOut(d, x, y);
    DivideOut(d, y, x);
  }

  /** Three points are enough. */
  lemma BilinearIsScaledUp(c: Coefficients, K: real, s: real)
    requires BilinearAt(c, K, s, 0.0) && BilinearAt(c, K, s, 1.0) && BilinearAt(c, K, s, -1.0)
    ensures ScaledUp(c, K, s, Denominator(K, s))
  {
  }

  lemma ScaledUpIsUnique(c: Coefficients, e: Coefficients, K: real, s: real, d: real)
    requires d > 0.0 && ScaledUp(c, K, s, d) && ScaledUp(e, K, s, d)
    ensures c == e
  {
    SameScaled(c.b0, e.b0, d);
    SameScaled(c.b1, e.b1, d);
    SameScaled(c.b2, e.b2, d);
    SameScaled(c.a1, e.a1, d);
    SameScaled(c.a2, e.a2, d);
  }

  /** The coefficients are those of the bilinear transform, and no others are. */
  lemma BilinearTransform(c: Coefficients, K: real, s: real)
    requires 0.0 < s < 2.0
    ensures c == Butterworth(K, s) <==> forall z: real :: BilinearAt(c, K, s, z)
  {
    ReciprocalIsPositive(Denominator(K, s), Norm(K, s));
    DividedIsScaledUp(Butterworth(K, s), K, s, Norm(K, s), Denominator(K, s));
    forall z: real
      ensures BilinearAt(Butterworth(K, s), K, s, z)
    {
      ScaledUpIsBilinear(Butterworth(K, s), K, s, z);
    }
    if forall z: real :: BilinearAt(c, K, s, z) {
      assert BilinearAt(c, K, s, 0.0) && BilinearAt(c, K, s, 1.0) && BilinearAt(c, K, s, -1.0);
      BilinearIsScaledUp(c, K, s);
      ScaledUpIsUnique(c, Butterworth(K, s), K, s, Denominator(K, s));
    }
  }

  /** A tangent positive up to the pole, at a cutoff between 0 and half the sampling rate. */
  lemma CutoffIsInBand(fs: real, fc: real, tan: real -> real, pi: real)
    requires 0.0 < pi && 0.0 < fc && 2.0 * fc < fs
    requires forall x :: 0.0 < x < 0.5 * pi ==> tan(x) > 0.0
    ensures tan(pi * fc / fs) > 0.0
  {
    var angle := pi * fc / fs;
    Positive(pi, fc, pi * fc);
    LessTimes(fc, 0.5 * fs, pi);
    AngleBounds(angle, fs, pi, pi * fc);
  }

  lemma AngleBounds(angle: real, fs: real, pi: real, turn: real)
    requires fs > 0.0 && angle * fs == turn && 0.0 < turn < 0.5 * fs * pi
    ensures 0.0 < angle < 0.5 * pi
  {
    if angle <= 0.0 {
      ProductNonNegative(-angle, fs);
    } else if angle >= 0.5 * pi {
      ProductNonNegative(angle - 0.5 * pi, fs);
    }
  }
}
