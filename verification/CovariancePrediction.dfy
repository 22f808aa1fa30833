/**
 The generated covariance prediction, in straight-line form: 144 shared temporaries and 120
 written entries. A field or variable `t24` is the temporary numbered 24.
 */
module CovariancePrediction {
  import opened LinearAlgebra
  import opened Reals

  /** A scaled sum of three products, the shape of the turned accelerations. */
  function Turned(dt: real, a: real, p: real, b: real, q: real, c: real, r: real): real {
    dt * (a * p + b * q + c * r)
  }

  /** The temporaries that depend on the state, the inputs and the variances alone. */
  datatype Terms = Terms(
    t8: real, t15: real, t20: real, t23: real, t29: real, t34: real, t36: real, t37: real, t43: real,
    t44: real, t45: real, t46: real, t47: real, t54: real, t55: real, t58: real, t59: real, t69: real,
    t71: real, t72: real, t75: real, t79: real, t80: real, t92: real, t93: real, t94: real, t101: real,
    t102: real, t104: real, t106: real, t107: real, t110: real, t112: real, t113: real, t119: real, t121: real,
    t128: real, t129: real, t130: real, t131: real, t132: real, t133: real, t137: real)

  /** Those that follow from the state, the acceleration and the time step. */
  datatype GeometryTerms = GeometryTerms(
    t8: real, t15: real, t20: real, t23: real, t29: real, t34: real, t36: real, t43: real, t44: real,
    t45: real, t54: real, t58: real, t69: real, t71: real, t72: real, t75: real, t79: real, t101: real,
    t104: real, t106: real, t110: real, t112: real, t129: real, t131: real, t132: real)

  function StateGeometry(state: Vec, accel: Vec, dt: real): GeometryTerms {
    var t0 := Sq(state(3));
    var t1 := t0 * dt;
    var t2 := Sq(state(0));
    var t3 := -t2 * dt;
    var t4 := Sq(state(2));
    var t5 := t4 * dt;
    var t6 := Sq(state(1));
    var t7 := t6 * dt;
    var t8 := t1 + t3 + t5 - t7;
    var t9 := 2.0 * state(1);
    var t10 := t9 * state(2);
    var t11 := -t10 * dt;
    var t12 := 2.0 * state(0);
    var t13 := t12 * state(3);
    var t14 := t13 * dt;
    var t15 := t11 + t14;
    var t16 := t9 * state(3);
    var t17 := -t16 * dt;
    var t18 := t12 * state(2);
    var t19 := t18 * dt;
    var t20 := t17 - t19;
    var t21 := t0 + t4;
    var t22 := t2 + t6;
    var t23 := t21 + t22;
    var t29 := t11 - t14;
    var t30 := 2.0 * state(2) * state(3);
    var t31 := -t30 * dt;
    var t32 := t12 * state(1);
    var t33 := t32 * dt;
    var t34 := t31 + t33;
    var t35 := t3 + t7;
    var t36 := t1 + t35 - t5;
    var t43 := t17 + t19;
    var t44 := t31 - t33;
    var t45 := -t1 + t35 + t5;
    var t54 := t16 + t18;
    var t57 := -t13;
    var t58 := t10 + t57;
    var t60 := -t10;
    var t61 := accel(0) - state(13);
    var t62 := -t30;
    var t63 := accel(2) - state(15);
    var t64 := -t4;
    var t65 := t0 + t64;
    var t66 := -t2;
    var t67 := t6 + t66;
    var t68 := accel(1) - state(14);
    var t69 := Turned(dt, t61, t57 + t60, t63, t32 + t62, t68, t65 + t67);
    var t70 := -t18;
    var t71 := t16 + t70;
    var t72 := t30 + t32;
    var t73 := -t6;
    var t74 := t2 + t73;
    var t75 := Turned(dt, t61, t71, t63, t65 + t74, t68, t72);
    var t77 := -2.0 * t4;
    var t78 := 1.0 - 2.0 * t0;
    var t79 := t77 + t78;
    var t101 := t10 + t13;
    var t103 := -t0;
    var t104 := Turned(dt, t54, t63, t58, t68, t61, t103 + t22 + t64);
    var t105 := -t32;
    var t106 := t105 + t30;
    var t108 := -t16;
    var t109 := t103 + t4;
    var t110 := Turned(dt, t61, t108 + t18, t63, t109 + t67, t68, t105 + t62);
    var t111 := -2.0 * t6;
    var t112 := t111 + t78;
    var t129 := Turned(dt, t61, t21 + t66 + t73, t63, t108 + t70, t68, t13 + t60);
    var t131 := Turned(dt, t101, t61, t106, t63, t68, t109 + t74);
    var t132 := t111 + t77 + 1.0;
    GeometryTerms(
      t8, t15, t20, t23, t29, t34, t36, t43, t44, t45, t54, t58, t69, t71, t72, t75, t79, t101, t104, t106,
      t110, t112, t129, t131, t132)
  }

  function WithVariances(s: GeometryTerms, accelVar: Vec, gyroVar: real, dt: real): Terms {
    var t37 := s.t36 * gyroVar;
    var t46 := s.t43 * gyroVar;
    var t47 := s.t45 * gyroVar;
    var t55 := s.t54 * dt;
    var t59 := s.t58 * dt;
    var t80 := s.t79 * dt;
    var t91 := Sq(dt);
    var t92 := t91 * accelVar(1);
    var t93 := t91 * accelVar(2);
    var t94 := t91 * accelVar(0);
    var t102 := s.t101 * dt;
    var t107 := s.t106 * dt;
    var t113 := s.t112 * dt;
    var t119 := s.t79 * t94;
    var t121 := s.t54 * t93;
    var t128 := s.t71 * dt;
    var t130 := s.t72 * dt;
    var t133 := s.t132 * dt;
    var t137 := s.t72 * t92;
    Terms(
      s.t8, s.t15, s.t20, s.t23, s.t29, s.t34, s.t36, t37, s.t43, s.t44, s.t45, t46, t47, s.t54, t55, s.t58,
      t59, s.t69, s.t71, s.t72, s.t75, s.t79, t80, t92, t93, t94, s.t101, t102, s.t104, s.t106, t107, s.t110,
      s.t112, t113, t119, t121, t128, s.t129, t130, s.t131, s.t132, t133, t137)
  }

  function StateTerms(state: Vec, accel: Vec, accelVar: Vec, gyroVar: real, dt: real): Terms {
    WithVariances(StateGeometry(state, accel, dt), accelVar, gyroVar, dt)
  }

  // The three shapes in which a column of the covariance is combined.

  function AttitudeSum(a: real, b: real, c: real, d: real, e: real, f: real, g: real, h: real): real {
    a * b + c * d + e * f + g * h
  }

  function HorizontalSum(a: real, b: real, c: real, d: real, e: real, f: real, g: real, h: real, k: real, l: real,
                         m: real): real {
    a * b - c * d - e * f - g * h + k * l + m
  }

  function VerticalSum(a: real, b: real, c: real, d: real, e: real, f: real, g: real, h: real, k: real, l: real,
                       m: real): real {
    a * b + c * d - e * f - g * h - k * l + m
  }

  // The temporaries that depend on the covariance, by the row of the result they serve.

  datatype Names0 = Names0(
    t24: real, t25: real, t26: real, t27: real, t28: real, t42: real, t53: real, t56: real, t76: real,
    t81: real, t114: real, t134: real)

  function RowNames0(c: Terms, P: Mat): Names0 {
    var t24 := AttitudeSum(P(0, 9), c.t23, P(10, 9), c.t15, P(11, 9), c.t20, P(9, 9), c.t8);
    var t25 := AttitudeSum(P(0, 0), c.t23, P(10, 0), c.t15, P(11, 0), c.t20, P(9, 0), c.t8);
    var t26 := AttitudeSum(P(0, 11), c.t23, P(10, 11), c.t15, P(11, 11), c.t20, P(9, 11), c.t8);
    var t27 := AttitudeSum(P(0, 10), c.t23, P(10, 10), c.t15, P(11, 10), c.t20, P(9, 10), c.t8);
    var t28 := AttitudeSum(P(0, 1), c.t23, P(10, 1), c.t15, P(11, 1), c.t20, P(9, 1), c.t8);
    var t42 := AttitudeSum(P(0, 2), c.t23, P(10, 2), c.t15, P(11, 2), c.t20, P(9, 2), c.t8);
    var t53 := AttitudeSum(P(0, 14), c.t23, P(10, 14), c.t15, P(11, 14), c.t20, P(9, 14), c.t8);
    var t56 := AttitudeSum(P(0, 13), c.t23, P(10, 13), c.t15, P(11, 13), c.t20, P(9, 13), c.t8);
    var t76 := AttitudeSum(P(0, 12), c.t23, P(10, 12), c.t15, P(11, 12), c.t20, P(9, 12), c.t8);
    var t81 := AttitudeSum(P(0, 3), c.t23, P(10, 3), c.t15, P(11, 3), c.t20, P(9, 3), c.t8);
    var t114 := AttitudeSum(P(0, 4), c.t23, P(10, 4), c.t15, P(11, 4), c.t20, P(9, 4), c.t8);
    var t134 := AttitudeSum(P(0, 5), c.t23, P(10, 5), c.t15, P(11, 5), c.t20, P(9, 5), c.t8);
    Names0(
      t24, t25, t26, t27, t28, t42, t53, t56, t76, t81, t114, t134)
  }

  datatype Names1 = Names1(
    t38: real, t39: real, t40: real, t41: real, t48: real, t82: real, t83: real, t84: real, t85: real,
    t115: real, t116: real, t135: real)

  function RowNames1(c: Terms, P: Mat): Names1 {
    var t38 := AttitudeSum(P(1, 9), c.t23, P(10, 9), c.t36, P(11, 9), c.t34, P(9, 9), c.t29);
    var t39 := AttitudeSum(P(1, 1), c.t23, P(10, 1), c.t36, P(11, 1), c.t34, P(9, 1), c.t29);
    var t40 := AttitudeSum(P(1, 10), c.t23, P(10, 10), c.t36, P(11, 10), c.t34, P(9, 10), c.t29);
    var t41 := AttitudeSum(P(1, 11), c.t23, P(10, 11), c.t36, P(11, 11), c.t34, P(9, 11), c.t29);
    var t48 := AttitudeSum(P(1, 2), c.t23, P(10, 2), c.t36, P(11, 2), c.t34, P(9, 2), c.t29);
    var t82 := AttitudeSum(P(1, 14), c.t23, P(10, 14), c.t36, P(11, 14), c.t34, P(9, 14), c.t29);
    var t83 := AttitudeSum(P(1, 13), c.t23, P(10, 13), c.t36, P(11, 13), c.t34, P(9, 13), c.t29);
    var t84 := AttitudeSum(P(1, 12), c.t23, P(10, 12), c.t36, P(11, 12), c.t34, P(9, 12), c.t29);
    var t85 := AttitudeSum(P(1, 3), c.t23, P(10, 3), c.t36, P(11, 3), c.t34, P(9, 3), c.t29);
    var t115 := AttitudeSum(P(1, 0), c.t23, P(10, 0), c.t36, P(11, 0), c.t34, P(9, 0), c.t29);
    var t116 := AttitudeSum(P(1, 4), c.t23, P(10, 4), c.t36, P(11, 4), c.t34, P(9, 4), c.t29);
    var t135 := AttitudeSum(P(1, 5), c.t23, P(10, 5), c.t36, P(11, 5), c.t34, P(9, 5), c.t29);
    Names1(
      t38, t39, t40, t41, t48, t82, t83, t84, t85, t115, t116, t135)
  }

  datatype Names2 = Names2(
    t49: real, t50: real, t51: real, t52: real, t86: real, t87: real, t88: real, t89: real, t90: real,
    t117: real, t118: real, t136: real)

  function RowNames2(c: Terms, P: Mat): Names2 {
    var t49 := AttitudeSum(P(10, 9), c.t44, P(11, 9), c.t45, P(2, 9), c.t23, P(9, 9), c.t43);
    var t50 := AttitudeSum(P(10, 2), c.t44, P(11, 2), c.t45, P(2, 2), c.t23, P(9, 2), c.t43);
    var t51 := AttitudeSum(P(10, 10), c.t44, P(11, 10), c.t45, P(2, 10), c.t23, P(9, 10), c.t43);
    var t52 := AttitudeSum(P(10, 11), c.t44, P(11, 11), c.t45, P(2, 11), c.t23, P(9, 11), c.t43);
    var t86 := AttitudeSum(P(10, 12), c.t44, P(11, 12), c.t45, P(2, 12), c.t23, P(9, 12), c.t43);
    var t87 := AttitudeSum(P(10, 13), c.t44, P(11, 13), c.t45, P(2, 13), c.t23, P(9, 13), c.t43);
    var t88 := AttitudeSum(P(10, 14), c.t44, P(11, 14), c.t45, P(2, 14), c.t23, P(9, 14), c.t43);
    var t89 := AttitudeSum(P(10, 1), c.t44, P(11, 1), c.t45, P(2, 1), c.t23, P(9, 1), c.t43);
    var t90 := AttitudeSum(P(10, 3), c.t44, P(11, 3), c.t45, P(2, 3), c.t23, P(9, 3), c.t43);
    var t117 := AttitudeSum(P(10, 0), c.t44, P(11, 0), c.t45, P(2, 0), c.t23, P(9, 0), c.t43);
    var t118 := AttitudeSum(P(10, 4), c.t44, P(11, 4), c.t45, P(2, 4), c.t23, P(9, 4), c.t43);
    var t136 := AttitudeSum(P(10, 5), c.t44, P(11, 5), c.t45, P(2, 5), c.t23, P(9, 5), c.t43);
    Names2(
      t49, t50, t51, t52, t86, t87, t88, t89, t90, t117, t118, t136)
  }

  datatype Names3 = Names3(
    t95: real, t96: real, t97: real, t98: real, t99: real, t100: real, t120: real, t122: real, t138: real)

  function RowNames3(c: Terms, P: Mat): Names3 {
    var t95 := HorizontalSum(P(1, 2), c.t75, P(12, 2), c.t80, P(13, 2), c.t59, P(14, 2), c.t55, P(2, 2), c.t69,
                             P(3, 2));
    var t96 := HorizontalSum(P(1, 14), c.t75, P(12, 14), c.t80, P(13, 14), c.t59, P(14, 14), c.t55, P(2, 14), c.t69,
                             P(3, 14));
    var t97 := HorizontalSum(P(1, 13), c.t75, P(12, 13), c.t80, P(13, 13), c.t59, P(14, 13), c.t55, P(2, 13), c.t69,
                             P(3, 13));
    var t98 := HorizontalSum(P(1, 1), c.t75, P(12, 1), c.t80, P(13, 1), c.t59, P(14, 1), c.t55, P(2, 1), c.t69,
                             P(3, 1));
    var t99 := HorizontalSum(P(1, 12), c.t75, P(12, 12), c.t80, P(13, 12), c.t59, P(14, 12), c.t55, P(2, 12), c.t69,
                             P(3, 12));
    var t100 := HorizontalSum(P(1, 3), c.t75, P(12, 3), c.t80, P(13, 3), c.t59, P(14, 3), c.t55, P(2, 3), c.t69,
                              P(3, 3));
    var t120 := HorizontalSum(P(1, 0), c.t75, P(12, 0), c.t80, P(13, 0), c.t59, P(14, 0), c.t55, P(2, 0), c.t69,
                              P(3, 0));
    var t122 := HorizontalSum(P(1, 4), c.t75, P(12, 4), c.t80, P(13, 4), c.t59, P(14, 4), c.t55, P(2, 4), c.t69,
                              P(3, 4));
    var t138 := HorizontalSum(P(1, 5), c.t75, P(12, 5), c.t80, P(13, 5), c.t59, P(14, 5), c.t55, P(2, 5), c.t69,
                              P(3, 5));
    Names3(
      t95, t96, t97, t98, t99, t100, t120, t122, t138)
  }

  datatype Names4 = Names4(
    t123: real, t124: real, t125: real, t126: real, t127: real, t139: real)

  function RowNames4(c: Terms, P: Mat): Names4 {
    var t123 := HorizontalSum(P(0, 13), c.t110, P(12, 13), c.t102, P(13, 13), c.t113, P(14, 13), c.t107, P(2, 13),
                              c.t104, P(4, 13));
    var t124 := HorizontalSum(P(0, 0), c.t110, P(12, 0), c.t102, P(13, 0), c.t113, P(14, 0), c.t107, P(2, 0), c.t104,
                              P(4, 0));
    var t125 := HorizontalSum(P(0, 12), c.t110, P(12, 12), c.t102, P(13, 12), c.t113, P(14, 12), c.t107, P(2, 12),
                              c.t104, P(4, 12));
    var t126 := HorizontalSum(P(0, 14), c.t110, P(12, 14), c.t102, P(13, 14), c.t113, P(14, 14), c.t107, P(2, 14),
                              c.t104, P(4, 14));
    var t127 := HorizontalSum(P(0, 4), c.t110, P(12, 4), c.t102, P(13, 4), c.t113, P(14, 4), c.t107, P(2, 4), c.t104,
                              P(4, 4));
    var t139 := HorizontalSum(P(0, 5), c.t110, P(12, 5), c.t102, P(13, 5), c.t113, P(14, 5), c.t107, P(2, 5), c.t104,
                              P(4, 5));
    Names4(
      t123, t124, t125, t126, t127, t139)
  }

  datatype Names5 = Names5(
    t140: real, t141: real, t142: real, t143: real)

  function RowNames5(c: Terms, P: Mat): Names5 {
    var t140 := VerticalSum(P(0, 14), c.t131, P(1, 14), c.t129, P(12, 14), c.t128, P(13, 14), c.t130, P(14, 14),
                            c.t133, P(5, 14));
    var t141 := VerticalSum(P(0, 13), c.t131, P(1, 13), c.t129, P(12, 13), c.t128, P(13, 13), c.t130, P(14, 13),
                            c.t133, P(5, 13));
    var t142 := VerticalSum(P(0, 12), c.t131, P(1, 12), c.t129, P(12, 12), c.t128, P(13, 12), c.t130, P(14, 12),
                            c.t133, P(5, 12));
    var t143 := VerticalSum(P(0, 5), c.t131, P(1, 5), c.t129, P(12, 5), c.t128, P(13, 5), c.t130, P(14, 5), c.t133,
                            P(5, 5));
    Names5(
      t140, t141, t142, t143)
  }

  /** Entry j of row 0 of the result. */
  function Row0(c: Terms, r: Names0, P: Mat, gyroVar: real, dt: real, j: int): real {
    if j == 0 then Sq(c.t15) * gyroVar + c.t15 * r.t27 + Sq(c.t20) * gyroVar + c.t20 * r.t26 + c.t23 * r.t25
      + r.t24 * c.t8 + Sq(c.t8) * gyroVar
    else if j == 1 then c.t15 * c.t37 + c.t20 * c.t34 * gyroVar + c.t23 * r.t28 + r.t24 * c.t29 + r.t26 * c.t34
      + r.t27 * c.t36 + c.t29 * c.t8 * gyroVar
    else if j == 2 then c.t15 * c.t44 * gyroVar + c.t20 * c.t47 + c.t23 * r.t42 + r.t24 * c.t43 + r.t26 * c.t45
      + r.t27 * c.t44 + c.t46 * c.t8
    else if j == 3 then r.t28 * c.t75 + r.t42 * c.t69 - r.t53 * c.t55 - r.t56 * c.t59 - r.t76 * c.t80 + r.t81
    else if j == 4 then -c.t102 * r.t76 + c.t104 * r.t42 - c.t107 * r.t53 + c.t110 * r.t25 - c.t113 * r.t56
      + r.t114
    else if j == 5 then -c.t128 * r.t76 + c.t129 * r.t28 - c.t130 * r.t56 + c.t131 * r.t25 - c.t133 * r.t53
      + r.t134
    else if j == 6 then AttitudeSum(P(0, 6), c.t23, P(10, 6), c.t15, P(11, 6), c.t20, P(9, 6), c.t8)
      + r.t81 * dt
    else if j == 7 then AttitudeSum(P(0, 7), c.t23, P(10, 7), c.t15, P(11, 7), c.t20, P(9, 7), c.t8)
      + r.t114 * dt
    else if j == 8 then AttitudeSum(P(0, 8), c.t23, P(10, 8), c.t15, P(11, 8), c.t20, P(9, 8), c.t8)
      + r.t134 * dt
    else if j == 9 then r.t24
    else if j == 10 then r.t27
    else if j == 11 then r.t26
    else if j == 12 then r.t76
    else if j == 13 then r.t56
    else r.t53
  }

  /** Entry j of row 1 of the result. */
  function Row1(c: Terms, r: Names1, P: Mat, gyroVar: real, dt: real, j: int): real {
    if j < 1 then 0.0
    else if j == 1 then c.t23 * r.t39 + Sq(c.t29) * gyroVar + c.t29 * r.t38 + Sq(c.t34) * gyroVar
      + c.t34 * r.t41 + Sq(c.t36) * gyroVar + c.t36 * r.t40
    else if j == 2 then c.t23 * r.t48 + c.t29 * c.t46 + c.t34 * c.t47 + c.t37 * c.t44 + r.t38 * c.t43
      + r.t40 * c.t44 + r.t41 * c.t45
    else if j == 3 then r.t39 * c.t75 + r.t48 * c.t69 - c.t55 * r.t82 - c.t59 * r.t83 - c.t80 * r.t84 + r.t85
    else if j == 4 then -c.t102 * r.t84 + c.t104 * r.t48 - c.t107 * r.t82 + c.t110 * r.t115 - c.t113 * r.t83
      + r.t116
    else if j == 5 then r.t115 * c.t131 - c.t128 * r.t84 + c.t129 * r.t39 - c.t130 * r.t83 - c.t133 * r.t82
      + r.t135
    else if j == 6 then AttitudeSum(P(1, 6), c.t23, P(10, 6), c.t36, P(11, 6), c.t34, P(9, 6), c.t29)
      + r.t85 * dt
    else if j == 7 then AttitudeSum(P(1, 7), c.t23, P(10, 7), c.t36, P(11, 7), c.t34, P(9, 7), c.t29)
      + r.t116 * dt
    else if j == 8 then AttitudeSum(P(1, 8), c.t23, P(10, 8), c.t36, P(11, 8), c.t34, P(9, 8), c.t29)
      + r.t135 * dt
    else if j == 9 then r.t38
    else if j == 10 then r.t40
    else if j == 11 then r.t41
    else if j == 12 then r.t84
    else if j == 13 then r.t83
    else r.t82
  }

  /** Entry j of row 2 of the result. */
  function Row2(c: Terms, r: Names2, P: Mat, gyroVar: real, dt: real, j: int): real {
    if j < 2 then 0.0
    else if j == 2 then c.t23 * r.t50 + Sq(c.t43) * gyroVar + c.t43 * r.t49 + Sq(c.t44) * gyroVar
      + c.t44 * r.t51 + Sq(c.t45) * gyroVar + c.t45 * r.t52
    else if j == 3 then r.t50 * c.t69 - c.t55 * r.t88 - c.t59 * r.t87 + c.t75 * r.t89 - c.t80 * r.t86 + r.t90
    else if j == 4 then -c.t102 * r.t86 + c.t104 * r.t50 - c.t107 * r.t88 + c.t110 * r.t117 - c.t113 * r.t87
      + r.t118
    else if j == 5 then r.t117 * c.t131 - c.t128 * r.t86 + c.t129 * r.t89 - c.t130 * r.t87 - c.t133 * r.t88
      + r.t136
    else if j == 6 then AttitudeSum(P(10, 6), c.t44, P(11, 6), c.t45, P(2, 6), c.t23, P(9, 6), c.t43)
      + r.t90 * dt
    else if j == 7 then AttitudeSum(P(10, 7), c.t44, P(11, 7), c.t45, P(2, 7), c.t23, P(9, 7), c.t43)
      + r.t118 * dt
    else if j == 8 then AttitudeSum(P(10, 8), c.t44, P(11, 8), c.t45, P(2, 8), c.t23, P(9, 8), c.t43)
      + r.t136 * dt
    else if j == 9 then r.t49
    else if j == 10 then r.t51
    else if j == 11 then r.t52
    else if j == 12 then r.t86
    else if j == 13 then r.t87
    else r.t88
  }

  /** Entry j of row 3 of the result. */
  function Row3(c: Terms, r: Names3, P: Mat, dt: real, j: int): real {
    if j < 3 then 0.0
    else if j == 3 then r.t100 + Sq(c.t54) * c.t93 - c.t55 * r.t96 + Sq(c.t58) * c.t92 - c.t59 * r.t97
      + c.t69 * r.t95 + c.t75 * r.t98 + Sq(c.t79) * c.t94 - c.t80 * r.t99
    else if j == 4 then c.t101 * c.t119 - c.t102 * r.t99 + c.t104 * r.t95 + c.t106 * c.t121 - c.t107 * r.t96
      + c.t110 * r.t120 + c.t112 * c.t58 * c.t92 - c.t113 * r.t97 + r.t122
    else if j == 5 then c.t119 * c.t71 + r.t120 * c.t131 + c.t121 * c.t132 - c.t128 * r.t99 + c.t129 * r.t98
      - c.t130 * r.t97 - c.t133 * r.t96 + c.t137 * c.t58 + r.t138
    else if j == 6 then HorizontalSum(P(1, 6), c.t75, P(12, 6), c.t80, P(13, 6), c.t59, P(14, 6), c.t55, P(2, 6),
                                      c.t69, P(3, 6))
      + r.t100 * dt
    else if j == 7 then HorizontalSum(P(1, 7), c.t75, P(12, 7), c.t80, P(13, 7), c.t59, P(14, 7), c.t55, P(2, 7),
                                      c.t69, P(3, 7))
      + r.t122 * dt
    else if j == 8 then HorizontalSum(P(1, 8), c.t75, P(12, 8), c.t80, P(13, 8), c.t59, P(14, 8), c.t55, P(2, 8),
                                      c.t69, P(3, 8))
      + r.t138 * dt
    else if j == 9 then HorizontalSum(P(1, 9), c.t75, P(12, 9), c.t80, P(13, 9), c.t59, P(14, 9), c.t55, P(2, 9),
                                      c.t69, P(3, 9))
    else if j == 10 then HorizontalSum(P(1, 10), c.t75, P(12, 10), c.t80, P(13, 10), c.t59, P(14, 10), c.t55, P(2, 10),
                                       c.t69, P(3, 10))
    else if j == 11 then HorizontalSum(P(1, 11), c.t75, P(12, 11), c.t80, P(13, 11), c.t59, P(14, 11), c.t55, P(2, 11),
                                       c.t69, P(3, 11))
    else if j == 12 then r.t99
    else if j == 13 then r.t97
    else r.t96
  }

  /** Entry j of row 4 of the result. */
  function Row4(c: Terms, r: Names4, P: Mat, dt: real, j: int): real {
    if j < 4 then 0.0
    else if j == 4 then Sq(c.t101) * c.t94 - c.t102 * r.t125
      + c.t104 * (HorizontalSum(P(0, 2), c.t110, P(12, 2), c.t102, P(13, 2), c.t113, P(14, 2), c.t107, P(2, 2), c.t104,
                                P(4, 2)))
      + Sq(c.t106) * c.t93 - c.t107 * r.t126 + c.t110 * r.t124 + Sq(c.t112) * c.t92 - c.t113 * r.t123 + r.t127
    else if j == 5 then c.t101 * c.t71 * c.t94 + c.t106 * c.t132 * c.t93 + c.t112 * c.t137 - r.t123 * c.t130
      + r.t124 * c.t131 - r.t125 * c.t128 - r.t126 * c.t133
      + c.t129 * (HorizontalSum(P(0, 1), c.t110, P(12, 1), c.t102, P(13, 1), c.t113, P(14, 1), c.t107, P(2, 1), c.t104,
                                P(4, 1)))
      + r.t139
    else if j == 6 then HorizontalSum(P(0, 6), c.t110, P(12, 6), c.t102, P(13, 6), c.t113, P(14, 6), c.t107, P(2, 6),
                                      c.t104, P(4, 6))
      + dt * (HorizontalSum(P(0, 3), c.t110, P(12, 3), c.t102, P(13, 3), c.t113, P(14, 3), c.t107, P(2, 3), c.t104,
                            P(4, 3)))
    else if j == 7 then HorizontalSum(P(0, 7), c.t110, P(12, 7), c.t102, P(13, 7), c.t113, P(14, 7), c.t107, P(2, 7),
                                      c.t104, P(4, 7))
      + r.t127 * dt
    else if j == 8 then HorizontalSum(P(0, 8), c.t110, P(12, 8), c.t102, P(13, 8), c.t113, P(14, 8), c.t107, P(2, 8),
                                      c.t104, P(4, 8))
      + r.t139 * dt
    else if j == 9 then HorizontalSum(P(0, 9), c.t110, P(12, 9), c.t102, P(13, 9), c.t113, P(14, 9), c.t107, P(2, 9),
                                      c.t104, P(4, 9))
    else if j == 10 then HorizontalSum(P(0, 10), c.t110, P(12, 10), c.t102, P(13, 10), c.t113, P(14, 10), c.t107,
                                       P(2, 10), c.t104, P(4, 10))
    else if j == 11 then HorizontalSum(P(0, 11), c.t110, P(12, 11), c.t102, P(13, 11), c.t113, P(14, 11), c.t107,
                                       P(2, 11), c.t104, P(4, 11))
    else if j == 12 then r.t125
    else if j == 13 then r.t123
    else r.t126
  }

  /** Entry j of row 5 of the result. */
  function Row5(c: Terms, r: Names5, P: Mat, dt: real, j: int): real {
    if j < 5 then 0.0
    else if j == 5 then -c.t128 * r.t142
      + c.t129 * (VerticalSum(P(0, 1), c.t131, P(1, 1), c.t129, P(12, 1), c.t128, P(13, 1), c.t130, P(14, 1), c.t133,
                              P(5, 1)))
      - c.t130 * r.t141
      + c.t131 * (VerticalSum(P(0, 0), c.t131, P(1, 0), c.t129, P(12, 0), c.t128, P(13, 0), c.t130, P(14, 0), c.t133,
                              P(5, 0)))
      + Sq(c.t132) * c.t93 - c.t133 * r.t140 + r.t143 + Sq(c.t71) * c.t94 + Sq(c.t72) * c.t92
    else if j == 6 then VerticalSum(P(0, 6), c.t131, P(1, 6), c.t129, P(12, 6), c.t128, P(13, 6), c.t130, P(14, 6),
                                    c.t133, P(5, 6))
      + dt * (VerticalSum(P(0, 3), c.t131, P(1, 3), c.t129, P(12, 3), c.t128, P(13, 3), c.t130, P(14, 3), c.t133,
                          P(5, 3)))
    else if j == 7 then VerticalSum(P(0, 7), c.t131, P(1, 7), c.t129, P(12, 7), c.t128, P(13, 7), c.t130, P(14, 7),
                                    c.t133, P(5, 7))
      + dt * (VerticalSum(P(0, 4), c.t131, P(1, 4), c.t129, P(12, 4), c.t128, P(13, 4), c.t130, P(14, 4), c.t133,
                          P(5, 4)))
    else if j == 8 then VerticalSum(P(0, 8), c.t131, P(1, 8), c.t129, P(12, 8), c.t128, P(13, 8), c.t130, P(14, 8),
                                    c.t133, P(5, 8))
      + r.t143 * dt
    else if j == 9 then VerticalSum(P(0, 9), c.t131, P(1, 9), c.t129, P(12, 9), c.t128, P(13, 9), c.t130, P(14, 9),
                                    c.t133, P(5, 9))
    else if j == 10 then VerticalSum(P(0, 10), c.t131, P(1, 10), c.t129, P(12, 10), c.t128, P(13, 10), c.t130,
                                     P(14, 10), c.t133, P(5, 10))
    else if j == 11 then VerticalSum(P(0, 11), c.t131, P(1, 11), c.t129, P(12, 11), c.t128, P(13, 11), c.t130,
                                     P(14, 11), c.t133, P(5, 11))
    else if j == 12 then r.t142
    else if j == 13 then r.t141
    else r.t140
  }

  /** Entry j of row 6 of the result. */
  function Row6(P: Mat, dt: real, j: int): real {
    if j < 6 then 0.0
    else if j == 6 then P(3, 6) * dt + P(6, 6) + dt * (P(3, 3) * dt + P(6, 3))
    else if j == 7 then P(3, 7) * dt + P(6, 7) + dt * (P(3, 4) * dt + P(6, 4))
    else if j == 8 then P(3, 8) * dt + P(6, 8) + dt * (P(3, 5) * dt + P(6, 5))
    else if j == 9 then P(3, 9) * dt + P(6, 9)
    else if j == 10 then P(3, 10) * dt + P(6, 10)
    else if j == 11 then P(3, 11) * dt + P(6, 11)
    else if j == 12 then P(3, 12) * dt + P(6, 12)
    else if j == 13 then P(3, 13) * dt + P(6, 13)
    else P(3, 14) * dt + P(6, 14)
  }

  /** Entry j of row 7 of the result. */
  function Row7(P: Mat, dt: real, j: int): real {
    if j < 7 then 0.0
    else if j == 7 then P(4, 7) * dt + P(7, 7) + dt * (P(4, 4) * dt + P(7, 4))
    else if j == 8 then P(4, 8) * dt + P(7, 8) + dt * (P(4, 5) * dt + P(7, 5))
    else if j == 9 then P(4, 9) * dt + P(7, 9)
    else if j == 10 then P(4, 10) * dt + P(7, 10)
    else if j == 11 then P(4, 11) * dt + P(7, 11)
    else if j == 12 then P(4, 12) * dt + P(7, 12)
    else if j == 13 then P(4, 13) * dt + P(7, 13)
    else P(4, 14) * dt + P(7, 14)
  }

  /** Entry j of row 8 of the result. */
  function Row8(P: Mat, dt: real, j: int): real {
    if j < 8 then 0.0
    else if j == 8 then P(5, 8) * dt + P(8, 8) + dt * (P(5, 5) * dt + P(8, 5))
    else if j == 9 then P(5, 9) * dt + P(8, 9)
    else if j == 10 then P(5, 10) * dt + P(8, 10)
    else if j == 11 then P(5, 11) * dt + P(8, 11)
    else if j == 12 then P(5, 12) * dt + P(8, 12)
    else if j == 13 then P(5, 13) * dt + P(8, 13)
    else P(5, 14) * dt + P(8, 14)
  }

  /** Entry (i, j) of the result; below row 8 the covariance is copied. */
  function PredictedEntry(c: Terms, P: Mat, gyroVar: real, dt: real, i: int, j: int): real {
    if i == 0 then Row0(c, RowNames0(c, P), P, gyroVar, dt, j)
    else if i == 1 then Row1(c, RowNames1(c, P), P, gyroVar, dt, j)
    else if i == 2 then Row2(c, RowNames2(c, P), P, gyroVar, dt, j)
    else if i == 3 then Row3(c, RowNames3(c, P), P, dt, j)
    else if i == 4 then Row4(c, RowNames4(c, P), P, dt, j)
    else if i == 5 then Row5(c, RowNames5(c, P), P, dt, j)
    else if i == 6 then Row6(P, dt, j)
    else if i == 7 then Row7(P, dt, j)
    else if i == 8 then Row8(P, dt, j)
    else if j < i then 0.0
    else P(i, j)
  }

  /** The upper triangle of the predicted covariance; the gyro reading is not used. */
  function PredictCovariance(state: Vec, P: Mat, accel: Vec, accelVar: Vec, gyro: Vec, gyroVar: real, dt: real): Mat {
    var c := StateTerms(state, accel, accelVar, gyroVar, dt);
    (i, j) => PredictedEntry(c, P, gyroVar, dt, i, j)
  }
}
