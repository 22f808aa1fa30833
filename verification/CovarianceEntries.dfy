/**
 The generated prediction, entry by entry, against the product it abbreviates. Here the
 temporaries are arbitrary reals: the proofs use only which Jacobian entry each one stands for.
 */
module CovarianceEntries {
  import opened Attitude
  import opened CovariancePrediction
  import opened LinearAlgebra

  function Noise3(a: real, b: real, c: real, p: real, q: real, r: real, x: real, y: real, z: real): real {
    a * p * x + b * q * y + c * r * z
  }

  /** Row i of the state Jacobian times `f`, in the temporaries that are its entries. */
  ghost function RowDot(c: Terms, dt: real, i: int, f: Vec): real {
    if i == 0 then Times(c.t23, f(0)) + Dot3(c.t8, c.t15, c.t20, f(9), f(10), f(11))
    else if i == 1 then Times(c.t23, f(1)) + Dot3(c.t29, c.t36, c.t34, f(9), f(10), f(11))
    else if i == 2 then Times(c.t23, f(2)) + Dot3(c.t43, c.t44, c.t45, f(9), f(10), f(11))
    else if i == 3 then Dot3(0.0, c.t75, c.t69, f(0), f(1), f(2)) + f(3)
                        + Dot3(-c.t80, -c.t59, -c.t55, f(12), f(13), f(14))
    else if i == 4 then Dot3(c.t110, 0.0, c.t104, f(0), f(1), f(2)) + f(4)
                        + Dot3(-c.t102, -c.t113, -c.t107, f(12), f(13), f(14))
    else if i == 5 then Dot3(c.t131, c.t129, 0.0, f(0), f(1), f(2)) + f(5)
                        + Dot3(-c.t128, -c.t130, -c.t133, f(12), f(13), f(14))
    else if i < 9 then Times(dt, f(i - 3)) + f(i)
    else f(i)
  }

  ghost function Column(P: Mat, l: int): Vec {
    k => P(k, l)
  }

  /** Entry (i, l) of the Jacobian times the covariance, combined as the code combines it. */
  ghost function ProductAt(c: Terms, dt: real, P: Mat, i: int, l: int): real {
    if i == 0 then AttitudeSum(P(0, l), c.t23, P(10, l), c.t15, P(11, l), c.t20, P(9, l), c.t8)
    else if i == 1 then AttitudeSum(P(1, l), c.t23, P(10, l), c.t36, P(11, l), c.t34, P(9, l), c.t29)
    else if i == 2 then AttitudeSum(P(10, l), c.t44, P(11, l), c.t45, P(2, l), c.t23, P(9, l), c.t43)
    else if i == 3 then
      HorizontalSum(P(1, l), c.t75, P(12, l), c.t80, P(13, l), c.t59, P(14, l), c.t55, P(2, l), c.t69, P(3, l))
    else if i == 4 then
      HorizontalSum(P(0, l), c.t110, P(12, l), c.t102, P(13, l), c.t113, P(14, l), c.t107, P(2, l), c.t104, P(4, l))
    else if i == 5 then
      VerticalSum(P(0, l), c.t131, P(1, l), c.t129, P(12, l), c.t128, P(13, l), c.t130, P(14, l), c.t133, P(5, l))
    else if i < 9 then P(i - 3, l) * dt + P(i, l)
    else P(i, l)
  }

  lemma ProductIsRowDot(c: Terms, dt: real, P: Mat, i: int, l: int)
    ensures ProductAt(c, dt, P, i, l) == RowDot(c, dt, i, Column(P, l))
  {
  }

  ghost function ProductRow(c: Terms, dt: real, P: Mat, i: int): Vec {
    l => ProductAt(c, dt, P, i, l)
  }

  /** The noise added to entry (i, j), in the temporaries. */
  ghost function NoiseDot(c: Terms, gyroVar: real, i: int, j: int): real {
    if i == 0 && j == 0 then Noise3(c.t8, c.t15, c.t20, gyroVar, gyroVar, gyroVar, c.t8, c.t15, c.t20)
    else if i == 0 && j == 1 then Noise3(c.t8, c.t15, c.t20, gyroVar, gyroVar, gyroVar, c.t29, c.t36, c.t34)
    else if i == 0 && j == 2 then Noise3(c.t8, c.t15, c.t20, gyroVar, gyroVar, gyroVar, c.t43, c.t44, c.t45)
    else if i == 1 && j == 1 then Noise3(c.t29, c.t36, c.t34, gyroVar, gyroVar, gyroVar, c.t29, c.t36, c.t34)
    else if i == 1 && j == 2 then Noise3(c.t29, c.t36, c.t34, gyroVar, gyroVar, gyroVar, c.t43, c.t44, c.t45)
    else if i == 2 && j == 2 then Noise3(c.t43, c.t44, c.t45, gyroVar, gyroVar, gyroVar, c.t43, c.t44, c.t45)
    else if i == 3 && j == 3 then Noise3(c.t79, c.t58, c.t54, c.t94, c.t92, c.t93, c.t79, c.t58, c.t54)
    else if i == 3 && j == 4 then Noise3(c.t79, c.t58, c.t54, c.t94, c.t92, c.t93, c.t101, c.t112, c.t106)
    else if i == 3 && j == 5 then Noise3(c.t79, c.t58, c.t54, c.t94, c.t92, c.t93, c.t71, c.t72, c.t132)
    else if i == 4 && j == 4 then Noise3(c.t101, c.t112, c.t106, c.t94, c.t92, c.t93, c.t101, c.t112, c.t106)
    else if i == 4 && j == 5 then Noise3(c.t101, c.t112, c.t106, c.t94, c.t92, c.t93, c.t71, c.t72, c.t132)
    else if i == 5 && j == 5 then Noise3(c.t71, c.t72, c.t132, c.t94, c.t92, c.t93, c.t71, c.t72, c.t132)
    else 0.0
  }

  /** Entry (i, j) of the product with the transposed Jacobian, plus the noise. */
  ghost function Target(c: Terms, dt: real, P: Mat, gyroVar: real, i: int, j: int): real {
    RowDot(c, dt, j, ProductRow(c, dt, P, i)) + NoiseDot(c, gyroVar, i, j)
  }

  /** The temporaries that name products of others. */
  ghost predicate SharedProducts(c: Terms, gyroVar: real) {
    && c.t37 == c.t36 * gyroVar && c.t46 == c.t43 * gyroVar && c.t47 == c.t45 * gyroVar
    && c.t119 == c.t79 * c.t94 && c.t121 == c.t54 * c.t93 && c.t137 == c.t72 * c.t92
  }

  // Which entries of a row of the product have a name in the code.

  ghost predicate Named0(r: Names0, v: Vec) {
    && v(0) == r.t25 && v(1) == r.t28 && v(2) == r.t42 && v(3) == r.t81 && v(4) == r.t114 &&
    v(5) == r.t134 && v(9) == r.t24 && v(10) == r.t27 && v(11) == r.t26 && v(12) == r.t76 &&
    v(13) == r.t56 && v(14) == r.t53
  }

  ghost predicate Named1(r: Names1, v: Vec) {
    && v(0) == r.t115 && v(1) == r.t39 && v(2) == r.t48 && v(3) == r.t85 && v(4) == r.t116 &&
    v(5) == r.t135 && v(9) == r.t38 && v(10) == r.t40 && v(11) == r.t41 && v(12) == r.t84 &&
    v(13) == r.t83 && v(14) == r.t82
  }

  ghost predicate Named2(r: Names2, v: Vec) {
    && v(0) == r.t117 && v(1) == r.t89 && v(2) == r.t50 && v(3) == r.t90 && v(4) == r.t118 &&
    v(5) == r.t136 && v(9) == r.t49 && v(10) == r.t51 && v(11) == r.t52 && v(12) == r.t86 &&
    v(13) == r.t87 && v(14) == r.t88
  }

  ghost predicate Named3(r: Names3, v: Vec) {
    && v(0) == r.t120 && v(1) == r.t98 && v(2) == r.t95 && v(3) == r.t100 && v(4) == r.t122 &&
    v(5) == r.t138 && v(12) == r.t99 && v(13) == r.t97 && v(14) == r.t96
  }

  ghost predicate Named4(r: Names4, v: Vec) {
    && v(0) == r.t124 && v(4) == r.t127 && v(5) == r.t139 && v(12) == r.t125 && v(13) == r.t123 &&
    v(14) == r.t126
  }

  ghost predicate Named5(r: Names5, v: Vec) {
    && v(5) == r.t143 && v(12) == r.t142 && v(13) == r.t141 && v(14) == r.t140
  }

  lemma Names0Hold(c: Terms, dt: real, P: Mat)
    ensures Named0(RowNames0(c, P), ProductRow(c, dt, P, 0))
  {
    var r, v := RowNames0(c, P), ProductRow(c, dt, P, 0);
    assert v(0) == ProductAt(c, dt, P, 0, 0);
    assert v(1) == ProductAt(c, dt, P, 0, 1);
    assert v(2) == ProductAt(c, dt, P, 0, 2);
    assert v(3) == ProductAt(c, dt, P, 0, 3);
    assert v(4) == ProductAt(c, dt, P, 0, 4);
    assert v(5) == ProductAt(c, dt, P, 0, 5);
    assert v(9) == ProductAt(c, dt, P, 0, 9);
    assert v(10) == ProductAt(c, dt, P, 0, 10);
    assert v(11) == ProductAt(c, dt, P, 0, 11);
    assert v(12) == ProductAt(c, dt, P, 0, 12);
    assert v(13) == ProductAt(c, dt, P, 0, 13);
    assert v(14) == ProductAt(c, dt, P, 0, 14);
  }

  lemma Names1Hold(c: Terms, dt: real, P: Mat)
    ensures Named1(RowNames1(c, P), ProductRow(c, dt, P, 1))
  {
    var r, v := RowNames1(c, P), ProductRow(c, dt, P, 1);
    assert v(0) == ProductAt(c, dt, P, 1, 0);
    assert v(1) == ProductAt(c, dt, P, 1, 1);
    assert v(2) == ProductAt(c, dt, P, 1, 2);
    assert v(3) == ProductAt(c, dt, P, 1, 3);
    assert v(4) == ProductAt(c, dt, P, 1, 4);
    assert v(5) == ProductAt(c, dt, P, 1, 5);
    assert v(9) == ProductAt(c, dt, P, 1, 9);
    assert v(10) == ProductAt(c, dt, P, 1, 10);
    assert v(11) == ProductAt(c, dt, P, 1, 11);
    assert v(12) == ProductAt(c, dt, P, 1, 12);
    assert v(13) == ProductAt(c, dt, P, 1, 13);
    assert v(14) == ProductAt(c, dt, P, 1, 14);
  }

  lemma Names2Hold(c: Terms, dt: real, P: Mat)
    ensures Named2(RowNames2(c, P), ProductRow(c, dt, P, 2))
  {
    var r, v := RowNames2(c, P), ProductRow(c, dt, P, 2);
    assert v(0) == ProductAt(c, dt, P, 2, 0);
    assert v(1) == ProductAt(c, dt, P, 2, 1);
    assert v(2) == ProductAt(c, dt, P, 2, 2);
    assert v(3) == ProductAt(c, dt, P, 2, 3);
    assert v(4) == ProductAt(c, dt, P, 2, 4);
    assert v(5) == ProductAt(c, dt, P, 2, 5);
    assert v(9) == ProductAt(c, dt, P, 2, 9);
    assert v(10) == ProductAt(c, dt, P, 2, 10);
    assert v(11) == ProductAt(c, dt, P, 2, 11);
    assert v(12) == ProductAt(c, dt, P, 2, 12);
    assert v(13) == ProductAt(c, dt, P, 2, 13);
    assert v(14) == ProductAt(c, dt, P, 2, 14);
  }

  lemma Names3Hold(c: Terms, dt: real, P: Mat)
    ensures Named3(RowNames3(c, P), ProductRow(c, dt, P, 3))
  {
    var r, v := RowNames3(c, P), ProductRow(c, dt, P, 3);
    assert v(0) == ProductAt(c, dt, P, 3, 0);
    assert v(1) == ProductAt(c, dt, P, 3, 1);
    assert v(2) == ProductAt(c, dt, P, 3, 2);
    assert v(3) == ProductAt(c, dt, P, 3, 3);
    assert v(4) == ProductAt(c, dt, P, 3, 4);
    assert v(5) == ProductAt(c, dt, P, 3, 5);
    assert v(12) == ProductAt(c, dt, P, 3, 12);
    assert v(13) == ProductAt(c, dt, P, 3, 13);
    assert v(14) == ProductAt(c, dt, P, 3, 14);
  }

  lemma Names4Hold(c: Terms, dt: real, P: Mat)
    ensures Named4(RowNames4(c, P), ProductRow(c, dt, P, 4))
  {
    var r, v := RowNames4(c, P), ProductRow(c, dt, P, 4);
    assert v(0) == ProductAt(c, dt, P, 4, 0);
    assert v(4) == ProductAt(c, dt, P, 4, 4);
    assert v(5) == ProductAt(c, dt, P, 4, 5);
    assert v(12) == ProductAt(c, dt, P, 4, 12);
    assert v(13) == ProductAt(c, dt, P, 4, 13);
    assert v(14) == ProductAt(c, dt, P, 4, 14);
  }

  lemma Names5Hold(c: Terms, dt: real, P: Mat)
    ensures Named5(RowNames5(c, P), ProductRow(c, dt, P, 5))
  {
    var r, v := RowNames5(c, P), ProductRow(c, dt, P, 5);
    assert v(5) == ProductAt(c, dt, P, 5, 5);
    assert v(12) == ProductAt(c, dt, P, 5, 12);
    assert v(13) == ProductAt(c, dt, P, 5, 13);
    assert v(14) == ProductAt(c, dt, P, 5, 14);
  }

  // The other entries of each row that the written row uses.

  ghost predicate Unnamed0(c: Terms, dt: real, P: Mat, v: Vec) {
    && v(6) == ProductAt(c, dt, P, 0, 6) && v(7) == ProductAt(c, dt, P, 0, 7) && v(8) == ProductAt(c, dt, P, 0, 8)
  }

  ghost predicate Unnamed1(c: Terms, dt: real, P: Mat, v: Vec) {
    && v(6) == ProductAt(c, dt, P, 1, 6) && v(7) == ProductAt(c, dt, P, 1, 7) && v(8) == ProductAt(c, dt, P, 1, 8)
  }

  ghost predicate Unnamed2(c: Terms, dt: real, P: Mat, v: Vec) {
    && v(6) == ProductAt(c, dt, P, 2, 6) && v(7) == ProductAt(c, dt, P, 2, 7) && v(8) == ProductAt(c, dt, P, 2, 8)
  }

  ghost predicate Unnamed3(c: Terms, dt: real, P: Mat, v: Vec) {
    && v(6) == ProductAt(c, dt, P, 3, 6) && v(7) == ProductAt(c, dt, P, 3, 7) && v(8) == ProductAt(c, dt, P, 3, 8)
    && v(9) == ProductAt(c, dt, P, 3, 9) && v(10) == ProductAt(c, dt, P, 3, 10) && v(11) == ProductAt(c, dt, P, 3, 11)
  }

  ghost predicate Unnamed4(c: Terms, dt: real, P: Mat, v: Vec) {
    && v(1) == ProductAt(c, dt, P, 4, 1) && v(2) == ProductAt(c, dt, P, 4, 2) && v(3) == ProductAt(c, dt, P, 4, 3)
    && v(6) == ProductAt(c, dt, P, 4, 6) && v(7) == ProductAt(c, dt, P, 4, 7) && v(8) == ProductAt(c, dt, P, 4, 8)
    && v(9) == ProductAt(c, dt, P, 4, 9) && v(10) == ProductAt(c, dt, P, 4, 10) && v(11) == ProductAt(c, dt, P, 4, 11)
  }

  ghost predicate Unnamed5(c: Terms, dt: real, P: Mat, v: Vec) {
    && v(0) == ProductAt(c, dt, P, 5, 0) && v(1) == ProductAt(c, dt, P, 5, 1) && v(2) == ProductAt(c, dt, P, 5, 2)
    && v(3) == ProductAt(c, dt, P, 5, 3) && v(4) == ProductAt(c, dt, P, 5, 4) && v(6) == ProductAt(c, dt, P, 5, 6)
    && v(7) == ProductAt(c, dt, P, 5, 7) && v(8) == ProductAt(c, dt, P, 5, 8) && v(9) == ProductAt(c, dt, P, 5, 9)
    && v(10) == ProductAt(c, dt, P, 5, 10) && v(11) == ProductAt(c, dt, P, 5, 11)
  }

  lemma Row0Dense(c: Terms, r: Names0, P: Mat, gyroVar: real, dt: real, v: Vec, j: int)
    requires Named0(r, v) && SharedProducts(c, gyroVar) && 0 <= j < 6
    requires Unnamed0(c, dt, P, v)
    ensures Row0(c, r, P, gyroVar, dt, j) == RowDot(c, dt, j, v) + NoiseDot(c, gyroVar, 0, j)
  {
    if j == 0 {
    } else if j == 1 {
    } else if j == 2 {
    } else if j == 3 {
    } else if j == 4 {
    }
  }

  lemma Row0Rest(c: Terms, r: Names0, P: Mat, gyroVar: real, dt: real, v: Vec, j: int)
    requires Named0(r, v) && SharedProducts(c, gyroVar) && 6 <= j < 15
    requires Unnamed0(c, dt, P, v)
    ensures Row0(c, r, P, gyroVar, dt, j) == RowDot(c, dt, j, v) + NoiseDot(c, gyroVar, 0, j)
  {
    if j < 9 {
    }
  }

  lemma Row0Entry(c: Terms, r: Names0, P: Mat, gyroVar: real, dt: real, v: Vec, j: int)
    requires Named0(r, v) && SharedProducts(c, gyroVar) && 0 <= j < 15
    requires Unnamed0(c, dt, P, v)
    ensures Row0(c, r, P, gyroVar, dt, j) == RowDot(c, dt, j, v) + NoiseDot(c, gyroVar, 0, j)
  {
    if j < 6 {
      Row0Dense(c, r, P, gyroVar, dt, v, j);
    } else {
      Row0Rest(c, r, P, gyroVar, dt, v, j);
    }
  }

  lemma Row1Dense(c: Terms, r: Names1, P: Mat, gyroVar: real, dt: real, v: Vec, j: int)
    requires Named1(r, v) && SharedProducts(c, gyroVar) && 1 <= j < 6
    requires Unnamed1(c, dt, P, v)
    ensures Row1(c, r, P, gyroVar, dt, j) == RowDot(c, dt, j, v) + NoiseDot(c, gyroVar, 1, j)
  {
    if j == 1 {
    } else if j == 2 {
    } else if j == 3 {
    } else if j == 4 {
    }
  }

  lemma Row1Rest(c: Terms, r: Names1, P: Mat, gyroVar: real, dt: real, v: Vec, j: int)
    requires Named1(r, v) && SharedProducts(c, gyroVar) && 6 <= j < 15
    requires Unnamed1(c, dt, P, v)
    ensures Row1(c, r, P, gyroVar, dt, j) == RowDot(c, dt, j, v) + NoiseDot(c, gyroVar, 1, j)
  {
    if j < 9 {
    }
  }

  lemma Row1Entry(c: Terms, r: Names1, P: Mat, gyroVar: real, dt: real, v: Vec, j: int)
    requires Named1(r, v) && SharedProducts(c, gyroVar) && 1 <= j < 15
    requires Unnamed1(c, dt, P, v)
    ensures Row1(c, r, P, gyroVar, dt, j) == RowDot(c, dt, j, v) + NoiseDot(c, gyroVar, 1, j)
  {
    if j < 6 {
      Row1Dense(c, r, P, gyroVar, dt, v, j);
    } else {
      Row1Rest(c, r, P, gyroVar, dt, v, j);
    }
  }

  lemma Row2Dense(c: Terms, r: Names2, P: Mat, gyroVar: real, dt: real, v: Vec, j: int)
    requires Named2(r, v) && SharedProducts(c, gyroVar) && 2 <= j < 6
    requires Unnamed2(c, dt, P, v)
    ensures Row2(c, r, P, gyroVar, dt, j) == RowDot(c, dt, j, v) + NoiseDot(c, gyroVar, 2, j)
  {
    if j == 2 {
    } else if j == 3 {
    } else if j == 4 {
    }
  }

  lemma Row2Rest(c: Terms, r: Names2, P: Mat, gyroVar: real, dt: real, v: Vec, j: int)
    requires Named2(r, v) && SharedProducts(c, gyroVar) && 6 <= j < 15
    requires Unnamed2(c, dt, P, v)
    ensures Row2(c, r, P, gyroVar, dt, j) == RowDot(c, dt, j, v) + NoiseDot(c, gyroVar, 2, j)
  {
    if j < 9 {
    }
  }

  lemma Row2Entry(c: Terms, r: Names2, P: Mat, gyroVar: real, dt: real, v: Vec, j: int)
    requires Named2(r, v) && SharedProducts(c, gyroVar) && 2 <= j < 15
    requires Unnamed2(c, dt, P, v)
    ensures Row2(c, r, P, gyroVar, dt, j) == RowDot(c, dt, j, v) + NoiseDot(c, gyroVar, 2, j)
  {
    if j < 6 {
      Row2Dense(c, r, P, gyroVar, dt, v, j);
    } else {
      Row2Rest(c, r, P, gyroVar, dt, v, j);
    }
  }

  lemma Row3First(c: Terms, r: Names3, P: Mat, gyroVar: real, dt: real, v: Vec, j: int)
    requires Named3(r, v) && SharedProducts(c, gyroVar) && j == 3
    requires Unnamed3(c, dt, P, v)
    ensures Row3(c, r, P, dt, j) == RowDot(c, dt, j, v) + NoiseDot(c, gyroVar, 3, j)
  {
  }

  lemma Row3Second(c: Terms, r: Names3, P: Mat, gyroVar: real, dt: real, v: Vec, j: int)
    requires Named3(r, v) && SharedProducts(c, gyroVar) && j == 4
    requires Unnamed3(c, dt, P, v)
    ensures Row3(c, r, P, dt, j) == RowDot(c, dt, j, v) + NoiseDot(c, gyroVar, 3, j)
  {
  }

  lemma Row3Third(c: Terms, r: Names3, P: Mat, gyroVar: real, dt: real, v: Vec, j: int)
    requires Named3(r, v) && SharedProducts(c, gyroVar) && j == 5
    requires Unnamed3(c, dt, P, v)
    ensures Row3(c, r, P, dt, j) == RowDot(c, dt, j, v) + NoiseDot(c, gyroVar, 3, j)
  {
  }

  lemma Row3Horizontal(c: Terms, r: Names3, P: Mat, gyroVar: real, dt: real, v: Vec, j: int)
    requires Named3(r, v) && SharedProducts(c, gyroVar) && 6 <= j < 9
    requires Unnamed3(c, dt, P, v)
    ensures Row3(c, r, P, dt, j) == RowDot(c, dt, j, v) + NoiseDot(c, gyroVar, 3, j)
  {
    if j == 6 {
    } else if j == 7 {
    }
  }

  lemma Row3Last(c: Terms, r: Names3, P: Mat, gyroVar: real, dt: real, v: Vec, j: int)
    requires Named3(r, v) && SharedProducts(c, gyroVar) && 9 <= j < 15
    requires Unnamed3(c, dt, P, v)
    ensures Row3(c, r, P, dt, j) == RowDot(c, dt, j, v) + NoiseDot(c, gyroVar, 3, j)
  {
  }

  lemma Row3Dense(c: Terms, r: Names3, P: Mat, gyroVar: real, dt: real, v: Vec, j: int)
    requires Named3(r, v) && SharedProducts(c, gyroVar) && 3 <= j < 6
    requires Unnamed3(c, dt, P, v)
    ensures Row3(c, r, P, dt, j) == RowDot(c, dt, j, v) + NoiseDot(c, gyroVar, 3, j)
  {
    if j == 3 {
      Row3First(c, r, P, gyroVar, dt, v, j);
    } else if j == 4 {
      Row3Second(c, r, P, gyroVar, dt, v, j);
    } else {
      Row3Third(c, r, P, gyroVar, dt, v, j);
    }
  }

  lemma Row3Rest(c: Terms, r: Names3, P: Mat, gyroVar: real, dt: real, v: Vec, j: int)
    requires Named3(r, v) && SharedProducts(c, gyroVar) && 6 <= j < 15
    requires Unnamed3(c, dt, P, v)
    ensures Row3(c, r, P, dt, j) == RowDot(c, dt, j, v) + NoiseDot(c, gyroVar, 3, j)
  {
    if j < 9 {
      Row3Horizontal(c, r, P, gyroVar, dt, v, j);
    } else {
      Row3Last(c, r, P, gyroVar, dt, v, j);
    }
  }

  lemma Row3Entry(c: Terms, r: Names3, P: Mat, gyroVar: real, dt: real, v: Vec, j: int)
    requires Named3(r, v) && SharedProducts(c, gyroVar) && 3 <= j < 15
    requires Unnamed3(c, dt, P, v)
    ensures Row3(c, r, P, dt, j) == RowDot(c, dt, j, v) + NoiseDot(c, gyroVar, 3, j)
  {
    if j < 6 {
      Row3Dense(c, r, P, gyroVar, dt, v, j);
    } else {
      Row3Rest(c, r, P, gyroVar, dt, v, j);
    }
  }

  lemma Row4Dense(c: Terms, r: Names4, P: Mat, gyroVar: real, dt: real, v: Vec, j: int)
    requires Named4(r, v) && SharedProducts(c, gyroVar) && 4 <= j < 6
    requires Unnamed4(c, dt, P, v)
    ensures Row4(c, r, P, dt, j) == RowDot(c, dt, j, v) + NoiseDot(c, gyroVar, 4, j)
  {
    if j == 4 {
    }
  }

  lemma Row4Rest(c: Terms, r: Names4, P: Mat, gyroVar: real, dt: real, v: Vec, j: int)
    requires Named4(r, v) && SharedProducts(c, gyroVar) && 6 <= j < 15
    requires Unnamed4(c, dt, P, v)
    ensures Row4(c, r, P, dt, j) == RowDot(c, dt, j, v) + NoiseDot(c, gyroVar, 4, j)
  {
    if j < 9 {
    }
  }

  lemma Row4Entry(c: Terms, r: Names4, P: Mat, gyroVar: real, dt: real, v: Vec, j: int)
    requires Named4(r, v) && SharedProducts(c, gyroVar) && 4 <= j < 15
    requires Unnamed4(c, dt, P, v)
    ensures Row4(c, r, P, dt, j) == RowDot(c, dt, j, v) + NoiseDot(c, gyroVar, 4, j)
  {
    if j < 6 {
      Row4Dense(c, r, P, gyroVar, dt, v, j);
    } else {
      Row4Rest(c, r, P, gyroVar, dt, v, j);
    }
  }

  lemma Row5Dense(c: Terms, r: Names5, P: Mat, gyroVar: real, dt: real, v: Vec, j: int)
    requires Named5(r, v) && SharedProducts(c, gyroVar) && 5 <= j < 6
    requires Unnamed5(c, dt, P, v)
    ensures Row5(c, r, P, dt, j) == RowDot(c, dt, j, v) + NoiseDot(c, gyroVar, 5, j)
  {
  }

  lemma Row5Rest(c: Terms, r: Names5, P: Mat, gyroVar: real, dt: real, v: Vec, j: int)
    requires Named5(r, v) && SharedProducts(c, gyroVar) && 6 <= j < 15
    requires Unnamed5(c, dt, P, v)
    ensures Row5(c, r, P, dt, j) == RowDot(c, dt, j, v) + NoiseDot(c, gyroVar, 5, j)
  {
    if j < 9 {
    }
  }

  lemma Row5Entry(c: Terms, r: Names5, P: Mat, gyroVar: real, dt: real, v: Vec, j: int)
    requires Named5(r, v) && SharedProducts(c, gyroVar) && 5 <= j < 15
    requires Unnamed5(c, dt, P, v)
    ensures Row5(c, r, P, dt, j) == RowDot(c, dt, j, v) + NoiseDot(c, gyroVar, 5, j)
  {
    if j < 6 {
      Row5Dense(c, r, P, gyroVar, dt, v, j);
    } else {
      Row5Rest(c, r, P, gyroVar, dt, v, j);
    }
  }

  lemma PositionEntry(c: Terms, P: Mat, gyroVar: real, dt: real, i: int, j: int)
    requires 6 <= i < 9 && i <= j < 15
    ensures PredictedEntry(c, P, gyroVar, dt, i, j) == Target(c, dt, P, gyroVar, i, j)
  {
    var v := ProductRow(c, dt, P, i);
    assert v(j) == ProductAt(c, dt, P, i, j);
    assert v(j - 3) == ProductAt(c, dt, P, i, j - 3);
  }

  lemma AttitudeEntry(c: Terms, P: Mat, gyroVar: real, dt: real, i: int, j: int)
    requires SharedProducts(c, gyroVar) && 0 <= i < 3 && i <= j < 15
    ensures PredictedEntry(c, P, gyroVar, dt, i, j) == Target(c, dt, P, gyroVar, i, j)
  {
    var v := ProductRow(c, dt, P, i);
    if i == 0 {
      Names0Hold(c, dt, P);
      assert v(6) == ProductAt(c, dt, P, 0, 6) && v(7) == ProductAt(c, dt, P, 0, 7) &&
             v(8) == ProductAt(c, dt, P, 0, 8);
      Row0Entry(c, RowNames0(c, P), P, gyroVar, dt, v, j);
    } else if i == 1 {
      Names1Hold(c, dt, P);
      assert v(6) == ProductAt(c, dt, P, 1, 6) && v(7) == ProductAt(c, dt, P, 1, 7) &&
             v(8) == ProductAt(c, dt, P, 1, 8);
      Row1Entry(c, RowNames1(c, P), P, gyroVar, dt, v, j);
    } else {
      Names2Hold(c, dt, P);
      assert v(6) == ProductAt(c, dt, P, 2, 6) && v(7) == ProductAt(c, dt, P, 2, 7) &&
             v(8) == ProductAt(c, dt, P, 2, 8);
      Row2Entry(c, RowNames2(c, P), P, gyroVar, dt, v, j);
    }
  }

  lemma VelocityEntry(c: Terms, P: Mat, gyroVar: real, dt: real, i: int, j: int)
    requires SharedProducts(c, gyroVar) && 3 <= i < 6 && i <= j < 15
    ensures PredictedEntry(c, P, gyroVar, dt, i, j) == Target(c, dt, P, gyroVar, i, j)
  {
    var v := ProductRow(c, dt, P, i);
    if i == 3 {
      Names3Hold(c, dt, P);
      assert v(6) == ProductAt(c, dt, P, 3, 6) && v(7) == ProductAt(c, dt, P, 3, 7) &&
             v(8) == ProductAt(c, dt, P, 3, 8) && v(9) == ProductAt(c, dt, P, 3, 9) &&
             v(10) == ProductAt(c, dt, P, 3, 10) && v(11) == ProductAt(c, dt, P, 3, 11);
      Row3Entry(c, RowNames3(c, P), P, gyroVar, dt, v, j);
    } else if i == 4 {
      Names4Hold(c, dt, P);
      assert v(1) == ProductAt(c, dt, P, 4, 1) && v(2) == ProductAt(c, dt, P, 4, 2) &&
             v(3) == ProductAt(c, dt, P, 4, 3) && v(6) == ProductAt(c, dt, P, 4, 6) &&
             v(7) == ProductAt(c, dt, P, 4, 7) && v(8) == ProductAt(c, dt, P, 4, 8) &&
             v(9) == ProductAt(c, dt, P, 4, 9) && v(10) == ProductAt(c, dt, P, 4, 10) &&
             v(11) == ProductAt(c, dt, P, 4, 11);
      Row4Entry(c, RowNames4(c, P), P, gyroVar, dt, v, j);
    } else {
      Names5Hold(c, dt, P);
      assert v(0) == ProductAt(c, dt, P, 5, 0) && v(1) == ProductAt(c, dt, P, 5, 1) &&
             v(2) == ProductAt(c, dt, P, 5, 2) && v(3) == ProductAt(c, dt, P, 5, 3) &&
             v(4) == ProductAt(c, dt, P, 5, 4) && v(6) == ProductAt(c, dt, P, 5, 6) &&
             v(7) == ProductAt(c, dt, P, 5, 7) && v(8) == ProductAt(c, dt, P, 5, 8) &&
             v(9) == ProductAt(c, dt, P, 5, 9) && v(10) == ProductAt(c, dt, P, 5, 10) &&
             v(11) == ProductAt(c, dt, P, 5, 11);
      Row5Entry(c, RowNames5(c, P), P, gyroVar, dt, v, j);
    }
  }

  /** On and above the diagonal, the code writes the product it was generated from. */
  lemma EntryMeetsTarget(c: Terms, P: Mat, gyroVar: real, dt: real, i: int, j: int)
    requires SharedProducts(c, gyroVar) && 0 <= i <= j < 15
    ensures PredictedEntry(c, P, gyroVar, dt, i, j) == Target(c, dt, P, gyroVar, i, j)
  {
    if i < 3 {
      AttitudeEntry(c, P, gyroVar, dt, i, j);
    } else if i < 6 {
      VelocityEntry(c, P, gyroVar, dt, i, j);
    } else if i < 9 {
      PositionEntry(c, P, gyroVar, dt, i, j);
    } else {
      assert ProductRow(c, dt, P, i)(j) == ProductAt(c, dt, P, i, j);
    }
  }
}
