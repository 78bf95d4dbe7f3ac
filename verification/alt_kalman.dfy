/**
 The altitude filter of estimator.c: a two-state Kalman filter whose covariance is
 updated in place, one element after the other.
 */
module AltKalmanFilter {
  import opened LinearAlgebra
  import opened KalmanCovariance

  const GPS_DT := 0.25
  const GPS_R := 2.0
  const GPS_SIGMA2 := 1.0

  // A 2x2 matrix, as the upper left block of a 3x3 one
  function Block(p00: real, p01: real, p10: real, p11: real): Mat3 {
    Mat3(p00, p01, 0.0, p10, p11, 0.0, 0.0, 0.0, 1.0)
  }

  predicate IsBlock(p: Mat3) {
    p.m02 == p.m12 == p.m20 == p.m21 == 0.0 && p.m22 == 1.0
  }

  lemma IsBlockOfBlock(a: real, b: real, c: real, d: real)
    ensures IsBlock(Block(a, b, c, d))
  {
  }

  /** F = [1 dt; 0 1] */
  function F(dt: real): Mat3 {
    Block(1.0, dt, 0.0, 1.0)
  }

  /** Acceleration noise sigma2 acts along g = (dt^2/2, dt). */
  function G(dt: real): Vec3 {
    Vec3(dt * dt / 2.0, dt, 0.0)
  }

  function Q(dt: real, sigma2: real): Mat3 {
    Outer(Scale(sigma2, G(dt)), G(dt))
  }

  datatype Estimate = Estimate(z: real, zDot: real, p: Mat3)

  function State(s: Estimate): Vec3 {
    Vec3(s.z, s.zDot, 0.0)
  }

  predicate Corrects(p: Mat3, r: real) {
    p.m00 + r > 0.00001 || p.m00 + r < -0.00001
  }

  /** z := z + zDot dt,  P := F P F' + Q */
  function Propagate(s: Estimate, dt: real, sigma2: real): Estimate {
    Estimate(s.z + s.zDot * dt, s.zDot, Predicted(s.p, F(dt), Q(dt, sigma2)))
  }

  /** x := x + K (gpsZ - z),  P := (I - K H) P */
  function Correct(s: Estimate, gpsZ: real, r: real): Estimate
    requires s.p.m00 + r != 0.0
  {
    InnovationOnAxes(s.p, r);
    var x := CorrectedState(State(s), s.p, E0, r, gpsZ);
    Estimate(x.x, x.y, Corrected(s.p, E0, r))
  }

  /** One call: prediction, then correction by the measured altitude. */
  function Step(s: Estimate, gpsZ: real, dt: real, r: real, sigma2: real): Estimate {
    var t := Propagate(s, dt, sigma2);
    if Corrects(t.p, r) then Correct(t, gpsZ, r) else t
  }

  // ------------------------------------------------------------ positive definiteness

  lemma BlockQuad(a: real, b: real, c: real, d: real, x: real, y: real, z: real)
    ensures Quad(Block(a, b, c, d), Vec3(x, y, z)) ==
            (a * x * x + (b + c) * x * y + d * y * y) + z * z
  {
    var w := MulVec(Block(a, b, c, d), Vec3(x, y, z));
    assert w == Vec3(a * x + b * y, c * x + d * y, z);
    assert Prod(x, a * x + b * y) == a * x * x + b * x * y;
    assert Prod(y, c * x + d * y) == c * x * y + d * y * y;
    assert Prod(z, z) == z * z;
  }

  lemma DetForm(p: real, q: real, r: real)
    ensures p * (-q) * (-q) + (q + q) * (-q) * p + r * p * p == p * (p * r - q * q)
  {
  }

  lemma SquareForm(p: real, q: real, r: real, x: real, y: real)
    ensures p * (p * x * x + (q + q) * x * y + r * y * y) ==
            (p * x + q * y) * (p * x + q * y) + (p * r - q * q) * (y * y)
  {
  }

  lemma PositiveFactor(p: real, d: real)
    requires p > 0.0 && p * d > 0.0
    ensures d > 0.0
  {
  }

  lemma SumOfSquares(l: real, d: real, y: real, px: real)
    requires d > 0.0 && (y == 0.0 ==> l == px && px != 0.0)
    ensures l * l + d * (y * y) > 0.0
  {
    var l2, y2 := l * l, y * y;
    SquarePositive(l, l2);
    SquarePositive(y, y2);
    assert d * y2 >= 0.0 && (y2 > 0.0 ==> d * y2 > 0.0);
    assert l2 + d * y2 > 0.0;
  }

  lemma FormPositive(p: real, q: real, r: real, x: real, y: real)
    requires p > 0.0 && p * r - q * q > 0.0 && (x != 0.0 || y != 0.0)
    ensures p * x * x + (q + q) * x * y + r * y * y > 0.0
  {
    SquareForm(p, q, r, x, y);
    SumOfSquares(p * x + q * y, p * r - q * q, y, p * x);
    PositiveFactor(p, p * x * x + (q + q) * x * y + r * y * y);
  }

  /** What positive definiteness means for the 2x2 block: Sylvester's criterion. */
  lemma Sylvester(a: real, b: real, c: real, d: real)
    ensures PosDef(Block(a, b, c, d)) <==> b == c && a > 0.0 && a * d - b * b > 0.0
  {
    hide Quad;
    var p := Block(a, b, c, d);
    if PosDef(p) {
      assert p == Transpose(p);
      BlockDeterminant(a, b, d);
    }
    if b == c && a > 0.0 && a * d - b * b > 0.0 {
      forall v: Vec3 | v != ZERO3 ensures Quad(p, v) > 0.0 {
        BlockPositive(a, b, d, v);
      }
    }
  }

  lemma BlockDeterminant(a: real, b: real, d: real)
    requires PosDef(Block(a, b, b, d))
    ensures a > 0.0 && a * d - b * b > 0.0
  {
    hide Quad, Block;
    BlockQuad(a, b, b, d, 1.0, 0.0, 0.0);
    assert a > 0.0;
    BlockQuad(a, b, b, d, -b, a, 0.0);
    DetForm(a, b, d);
    PositiveFactor(a, a * d - b * b);
  }

  lemma BlockPositive(a: real, b: real, d: real, v: Vec3)
    requires a > 0.0 && a * d - b * b > 0.0 && v != ZERO3
    ensures Quad(Block(a, b, b, d), v) > 0.0
  {
    hide Quad, Block;
    var x, y, z := v.x, v.y, v.z;
    SquarePositive(z, z * z);
    if x != 0.0 || y != 0.0 {
      BlockQuad(a, b, b, d, x, y, z);
      FormPositive(a, b, d, x, y);
    } else {
      BlockQuad(a, b, b, d, 0.0, 0.0, z);
    }
  }

  // ------------------------------------------------------------ every run

  lemma NoiseSemiDef(dt: real, sigma2: real)
    requires sigma2 >= 0.0
    ensures PosSemiDef(Q(dt, sigma2))
  {
    hide MulVec, Dot, Prod, Scale;
    var g := G(dt);
    forall v ensures Quad(Q(dt, sigma2), v) >= 0.0 {
      var b := Dot(g, v);
      OuterVec(Scale(sigma2, g), g, v);
      DotScale(b, v, Scale(sigma2, g));
      DotScale(sigma2, v, g);
      DotCommutes(v, g);
      NonNegativeProducts(b, sigma2);
    }
    OuterSymmetric(sigma2, g);
  }

  lemma NonNegativeProducts(b: real, s: real)
    requires s >= 0.0
    ensures Prod(b, Prod(s, b)) >= 0.0
  {
    var b2 := b * b;
    SquarePositive(b, b2);
    assert Prod(b, Prod(s, b)) == s * b2;
  }

  lemma OuterSymmetric(s: real, g: Vec3)
    ensures Symmetric(Outer(Scale(s, g), g))
  {
    hide Prod;
    ProdAssoc(s, g.x, g.y);
    ProdAssoc(s, g.x, g.z);
    ProdAssoc(s, g.y, g.z);
    ProdAssoc(s, g.y, g.x);
    ProdAssoc(s, g.z, g.x);
    ProdAssoc(s, g.z, g.y);
    ProdCommutes(g.x, g.y);
    ProdCommutes(g.x, g.z);
    ProdCommutes(g.y, g.z);
  }

  lemma FInjective(dt: real)
    ensures Injective(F(dt))
  {
    forall v: Vec3 | v != ZERO3 ensures MulVec(Transpose(F(dt)), v) != ZERO3 {
      assert MulVec(Transpose(F(dt)), v) == Vec3(v.x, dt * v.x + v.y, v.z);
    }
  }

  /**
   One call keeps the covariance symmetric positive definite.  The divisor exceeds r, so
   with r of at least 10^-5 the correction is always made, and it raises no variance.
   */
  lemma StepPosDef(s: Estimate, gpsZ: real, dt: real, r: real, sigma2: real)
    requires PosDef(s.p) && IsBlock(s.p) && r > 0.0 && sigma2 >= 0.0
    ensures var p := Predicted(s.p, F(dt), Q(dt, sigma2));
            var s' := Step(s, gpsZ, dt, r, sigma2);
            && PosDef(p) && p.m00 + r > r
            && (r >= 0.00001 ==> Corrects(p, r))
            && PosDef(s'.p)
            && forall v :: Quad(s'.p, v) <= Quad(p, v)
  {
    hide Quad, Predicted, Corrected, F, Q;
    var p := Predicted(s.p, F(dt), Q(dt, sigma2));
    NoiseSemiDef(dt, sigma2);
    FInjective(dt);
    PredictedPosDef(s.p, F(dt), Q(dt, sigma2));
    CorrectedPosDef(p, E0, r);
    InnovationOnAxes(p, r);
  }

  lemma PredictBlock(a: real, b: real, c: real, d: real, dt: real, s: real)
    ensures Predicted(Block(a, b, c, d), F(dt), Q(dt, s)) == Block(
      a + Prod(c, dt) + Prod(dt, b + Prod(d, dt)) + Q(dt, s).m00,
      b + Prod(d, dt) + Q(dt, s).m01,
      c + Prod(d, dt) + Q(dt, s).m10,
      d + Q(dt, s).m11)
  {
    hide Prod, Mul, Q, F, Transpose;
    FTimes(a, b, c, d, dt);
    TimesF(a + Prod(c, dt), b + Prod(d, dt), c, d, dt);
    NoiseIsFlat(dt, s);
  }

  lemma FTimes(a: real, b: real, c: real, d: real, dt: real)
    ensures Mul(F(dt), Block(a, b, c, d)) == Block(a + Prod(c, dt), b + Prod(d, dt), c, d)
  {
    hide Prod, Mul;
    BlockMul(1.0, dt, 0.0, 1.0, a, b, c, d);
    ProdUnits(a);
    ProdUnits(b);
    ProdUnits(c);
    ProdUnits(d);
  }

  lemma TimesF(a: real, b: real, c: real, d: real, dt: real)
    ensures Mul(Block(a, b, c, d), Transpose(F(dt))) ==
            Block(a + Prod(dt, b), b, c + Prod(d, dt), d)
  {
    hide Prod, Mul;
    assert Transpose(F(dt)) == Block(1.0, 0.0, dt, 1.0);
    BlockMul(a, b, c, d, 1.0, 0.0, dt, 1.0);
    ProdUnits(a);
    ProdUnits(b);
    ProdUnits(c);
    ProdUnits(d);
    ProdCommutes(d, dt);
  }

  lemma NoiseIsFlat(dt: real, s: real)
    ensures var q := Q(dt, s); q.m02 == q.m12 == q.m20 == q.m21 == q.m22 == 0.0
  {
  }

  lemma BlockMul(a: real, b: real, c: real, d: real, e: real, f: real, g: real, h: real)
    ensures Mul(Block(a, b, c, d), Block(e, f, g, h)) ==
            Block(Prod(e, a) + Prod(g, b), Prod(f, a) + Prod(h, b),
                  Prod(e, c) + Prod(g, d), Prod(f, c) + Prod(h, d))
  {
    hide Prod;
    ProdUnits(a);
    ProdUnits(b);
    ProdUnits(c);
    ProdUnits(d);
    ProdUnits(e);
    ProdUnits(f);
    ProdUnits(g);
    ProdUnits(h);
    ProdUnits(0.0);
    ProdUnits(1.0);
  }

  // The noise matrix as the code fills it in
  lemma NoiseElements(dt: real, s: real, q00: real, q01: real, q11: real,
                      n00: real, n01: real, n11: real)
    requires q00 == dt * dt * dt * dt / 4.0 && q01 == dt * dt * dt / 2.0 && q11 == dt * dt
    requires n00 == s * q00 && n01 == s * q01 && n11 == s * q11
    ensures var q := Q(dt, s); q.m00 == n00 && q.m01 == n01 == q.m10 && q.m11 == n11
  {
    var h := dt * dt / 2.0;
    assert h * h == q00 && h * dt == q01;
    assert Prod(Prod(s, h), h) == s * (h * h) == s * q00;
    assert Prod(Prod(s, h), dt) == Prod(Prod(s, dt), h) == s * (h * dt) == s * q01;
    assert Prod(Prod(s, dt), dt) == s * (dt * dt) == s * q11;
  }

  lemma OverBlock(a: real, c: real, e: real)
    requires e != 0.0
    ensures Over(Vec3(a, c, 0.0), e) == Vec3(a / e, c / e, 0.0)
  {
  }

  lemma GainBlock(a: real, b: real, c: real, d: real, r: real)
    requires Innovation(Block(a, b, c, d), E0, r) != 0.0
    ensures Gain(Block(a, b, c, d), E0, r) ==
            Over(Vec3(a, c, 0.0), Innovation(Block(a, b, c, d), E0, r))
  {
    hide Prod, Transpose, MulVec, Innovation, Block, Over;
    BlockE0(a, b, c, d);
  }

  lemma CorrectBlock(a: real, b: real, c: real, d: real, r: real, k0: real, k1: real)
    requires Innovation(Block(a, b, c, d), E0, r) != 0.0
    requires Gain(Block(a, b, c, d), E0, r) == Vec3(k0, k1, 0.0)
    ensures Corrected(Block(a, b, c, d), E0, r) ==
            Block(a - Prod(k0, a), b - Prod(k0, b), c - Prod(k1, a), d - Prod(k1, b))
  {
    hide Prod, Outer, MatPlus, Transpose, MulVec, Innovation, Block, Scale, Gain;
    BlockE0(a, b, c, d);
    BlockMinus(a, b, c, d, k0, k1, a, b);
  }

  lemma BlockMinus(a: real, b: real, c: real, d: real, k0: real, k1: real, w0: real, w1: real)
    ensures MatPlus(Block(a, b, c, d), Outer(Scale(-1.0, Vec3(k0, k1, 0.0)), Vec3(w0, w1, 0.0))) ==
            Block(a - Prod(k0, w0), b - Prod(k0, w1), c - Prod(k1, w0), d - Prod(k1, w1))
  {
    hide Prod, MatPlus, Outer, Scale;
    AddOuterProd(Block(a, b, c, d), k0, k1, 0.0, w0, w1, 0.0);
    ProdUnits(k0);
    ProdUnits(k1);
    ProdUnits(w0);
    ProdUnits(w1);
    ProdUnits(0.0);
  }

  lemma BlockE0(a: real, b: real, c: real, d: real)
    ensures MulVec(Block(a, b, c, d), E0) == Vec3(a, c, 0.0)
    ensures MulVec(Transpose(Block(a, b, c, d)), E0) == Vec3(a, b, 0.0)
  {
    hide Prod;
    ProdUnits(a);
    ProdUnits(b);
    ProdUnits(c);
    ProdUnits(d);
    ProdUnits(0.0);
    ProdUnits(1.0);
  }

  // The 2x2 matrix of a block stays a 2x2 matrix
  lemma StepBlock(s: Estimate, gpsZ: real, dt: real, r: real, sigma2: real)
    requires IsBlock(s.p)
    ensures IsBlock(Step(s, gpsZ, dt, r, sigma2).p)
  {
    hide Prod, Predicted, Corrected, Gain, Innovation, F, Q;
    PredictBlock(s.p.m00, s.p.m01, s.p.m10, s.p.m11, dt, sigma2);
    var p := Predicted(s.p, F(dt), Q(dt, sigma2));
    if Corrects(p, r) {
      InnovationOnAxes(p, r);
      GainBlock(p.m00, p.m01, p.m10, p.m11, r);
      OverBlock(p.m00, p.m10, p.m00 + r);
      var k := Gain(p, E0, r);
      CorrectBlock(p.m00, p.m01, p.m10, p.m11, r, k.x, k.y);
    }
  }

  /** A run of calls in the GPS configuration, after a reset. */
  predicate GpsRun(states: seq<Estimate>, measurements: seq<real>) {
    && |states| == |measurements| + 1
    && states[0].p == Block(1.0, 0.0, 0.0, 1.0)
    && forall i :: 0 <= i < |measurements| ==>
         states[i + 1] == Step(states[i], measurements[i], GPS_DT, GPS_R, GPS_SIGMA2)
  }

  /** In every run the covariance is symmetric positive definite and every correction is made. */
  lemma {:induction false} GpsRunPosDef(states: seq<Estimate>, measurements: seq<real>, n: nat)
    requires GpsRun(states, measurements) && n < |states|
    ensures PosDef(states[n].p) && IsBlock(states[n].p)
    ensures n < |measurements| ==>
              var p := Predicted(states[n].p, F(GPS_DT), Q(GPS_DT, GPS_SIGMA2));
              PosDef(p) && p.m00 + GPS_R > GPS_R && Corrects(p, GPS_R)
  {
    hide Predicted, F, Q, Step, PosDef;
    if n == 0 {
      DiagPosDef(1.0, 1.0, 1.0);
      assert Block(1.0, 0.0, 0.0, 1.0) == Diag(1.0, 1.0, 1.0);
    } else {
      var s, m := states[n - 1], measurements[n - 1];
      GpsRunPosDef(states, measurements, n - 1);
      StepPosDef(s, m, GPS_DT, GPS_R, GPS_SIGMA2);
      StepBlock(s, m, GPS_DT, GPS_R, GPS_SIGMA2);
    }
    if n < |measurements| {
      StepPosDef(states[n], measurements[n], GPS_DT, GPS_R, GPS_SIGMA2);
    }
  }

  // ------------------------------------------------------------ what the estimate follows

  /** Altitude and vertical speed after a time dt of constant acceleration. */
  function Motion(t: Vec3, dt: real, accel: real): Vec3 {
    Vec3(t.x + dt * t.y + accel * (dt * dt / 2.0), t.y + dt * accel, t.z)
  }

  lemma PropagateError(s: Estimate, dt: real, sigma2: real, t: Vec3, accel: real)
    ensures Minus(State(Propagate(s, dt, sigma2)), Motion(t, dt, accel)) ==
            Plus(MulVec(F(dt), Minus(State(s), t)), Scale(-accel, G(dt)))
  {
    hide Predicted, Q;
    var e := Minus(State(s), t);
    var h := dt * dt / 2.0;
    assert MulVec(F(dt), e) == Vec3(e.x + dt * e.y, e.y, e.z);
    assert dt * (s.zDot - t.y) == s.zDot * dt - dt * t.y;
    assert Prod(-accel, h) == -(accel * h) && Prod(-accel, dt) == -(dt * accel);
    assert Prod(-accel, 0.0) == 0.0;
  }

  // The error stays an error of altitude and speed
  lemma GainIsFlat(p: Mat3, r: real)
    requires IsBlock(p) && Innovation(p, E0, r) != 0.0
    ensures Gain(p, E0, r).z == 0.0
  {
    hide Innovation, Over;
    GainBlock(p.m00, p.m01, p.m10, p.m11, r);
    OverBlock(p.m00, p.m10, Innovation(p, E0, r));
  }

  lemma CorrectError(s: Estimate, gpsZ: real, r: real, t: Vec3)
    requires IsBlock(s.p) && Innovation(s.p, E0, r) != 0.0 && s.p.m00 + r != 0.0
    ensures Minus(State(Correct(s, gpsZ, r)), t) ==
            Plus(MulVec(ErrorStep(s.p, E0, r), Minus(State(s), t)),
                 Scale(gpsZ - t.x, Gain(s.p, E0, r)))
  {
    hide Corrected, ErrorStep, Gain, Innovation, MulVec, Dot;
    GainIsFlat(s.p, r);
    assert Dot(E0, t) == t.x by { DotAxis(t); }
    CorrectedError(State(s), s.p, E0, r, t, gpsZ - t.x);
    assert CorrectedState(State(s), s.p, E0, r, gpsZ).z == 0.0 by {
      ProdUnits(gpsZ - Dot(E0, State(s)));
    }
  }

  lemma DotAxis(t: Vec3)
    ensures Dot(E0, t) == t.x
  {
  }

  /**
   One call and the measurement: with e = p00 + r more than 10^-5 from zero the correction
   leaves r / e of the residual, otherwise the prediction stands.
   */
  lemma StepResidual(s: Estimate, gpsZ: real, dt: real, r: real, sigma2: real)
    ensures var (m, s') := (Propagate(s, dt, sigma2), Step(s, gpsZ, dt, r, sigma2));
            var e := m.p.m00 + r;
            if e > 0.00001 || -e > 0.00001 then Prod(e, gpsZ - s'.z) == Prod(r, gpsZ - m.z)
            else s' == m
  {
    hide Corrected, Gain, Innovation, CorrectedState, Dot, Predicted, F, Q, Prod;
    var m := Propagate(s, dt, sigma2);
    InnovationOnAxes(m.p, r);
    if Corrects(m.p, r) {
      DotAxis(State(m));
      DotAxis(CorrectedState(State(m), m.p, E0, r, gpsZ));
      CorrectedResidual(State(m), m.p, E0, r, gpsZ);
    }
  }

  /**
   One call and the ellipsoid of the covariance: its scale grows by the squared acceleration
   in units of sigma2, and by the squared error of the measurement in units of r.
   */
  lemma StepWithin(s: Estimate, gpsZ: real, dt: real, r: real, sigma2: real, t: Vec3, accel: real,
                   c: real, a2: real, n2: real)
    requires PosDef(s.p) && IsBlock(s.p) && r >= 0.00001 && sigma2 > 0.0
    requires Within(s.p, Minus(State(s), t), c) && c >= 0.0
    requires a2 >= 0.0 && accel * accel <= a2 * sigma2
    requires var n := gpsZ - Motion(t, dt, accel).x; n2 >= 0.0 && n * n <= n2 * r
    ensures var s' := Step(s, gpsZ, dt, r, sigma2);
            Within(s'.p, Minus(State(s'), Motion(t, dt, accel)), c + a2 + n2)
  {
    hide Within, PosDef, Predicted, Corrected, ErrorStep, Gain, Innovation, F, G, MulVec, Plus, Minus,
         Scale, Outer, Motion, IsBlock, State;
    var m := Propagate(s, dt, sigma2);
    var t', n := Motion(t, dt, accel), gpsZ - Motion(t, dt, accel).x;
    StepPosDef(s, gpsZ, dt, r, sigma2);
    PropagateBlock(s, dt, sigma2);
    InnovationOnAxes(m.p, r);
    PropagateError(s, dt, sigma2, t, accel);
    SquareUnits(accel, -accel, a2, sigma2);
    MovedWithin(s.p, F(dt), sigma2, G(dt), Minus(State(s), t), c, -accel, a2);
    CorrectError(m, gpsZ, r, t');
    SquareUnits(n, n, n2, r);
    CorrectedWithin(m.p, E0, r, Minus(State(m), t'), c + a2, n, n2);
  }

  lemma SquareUnits(a: real, b: real, d: real, u: real)
    requires a * a <= d * u && (b == a || b == -a)
    ensures Prod(b, b) <= Prod(d, u)
  {
  }

  lemma PropagateBlock(s: Estimate, dt: real, sigma2: real)
    requires IsBlock(s.p)
    ensures IsBlock(Propagate(s, dt, sigma2).p)
  {
    hide Prod, Predicted, F, Q;
    PredictBlock(s.p.m00, s.p.m01, s.p.m10, s.p.m11, dt, sigma2);
  }

  /** A flight: from truth[i] to truth[i + 1] with acceleration accels[i]. */
  predicate Moves(truth: seq<Vec3>, accels: seq<real>) {
    && |truth| == |accels| + 1
    && truth[0].z == 0.0
    && forall i :: 0 <= i < |accels| ==> truth[i + 1] == Motion(truth[i], 0.25, accels[i])
  }

  // What one call may add to the scale
  function Cost(accel: real, n: real): (c: real)
    ensures c >= 0.0
  {
    NonNegative(accel);
    NonNegative(n);
    accel * accel + n * n / 2.0
  }

  // Over the first n calls: squared accelerations, and squared errors of the measurements in
  // units of their variance 2
  function Spent(truth: seq<Vec3>, accels: seq<real>, measurements: seq<real>, n: nat): (c: real)
    requires |truth| == |accels| + 1 == |measurements| + 1 && n <= |accels|
    ensures c >= 0.0
  {
    if n == 0 then 0.0
    else
      Spent(truth, accels, measurements, n - 1) + Cost(accels[n - 1], measurements[n - 1] - truth[n].x)
  }

  lemma GpsStepWithin(s: Estimate, gpsZ: real, t: Vec3, accel: real, c: real)
    requires PosDef(s.p) && IsBlock(s.p) && Within(s.p, Minus(State(s), t), c) && c >= 0.0
    ensures var s', t' := Step(s, gpsZ, GPS_DT, GPS_R, GPS_SIGMA2), Motion(t, 0.25, accel);
            Within(s'.p, Minus(State(s'), t'), c + Cost(accel, gpsZ - t'.x))
  {
    hide Within, Step, Motion, Minus, PosDef, IsBlock, State;
    var n := gpsZ - Motion(t, 0.25, accel).x;
    var a2, n2 := accel * accel, n * n / 2.0;
    NonNegative(accel);
    NonNegative(n);
    StepWithin(s, gpsZ, 0.25, 2.0, 1.0, t, accel, c, a2, n2);
    assert c + a2 + n2 == c + Cost(accel, n);
  }

  lemma {:induction false} GpsRunWithin(states: seq<Estimate>, measurements: seq<real>,
                                        truth: seq<Vec3>, accels: seq<real>, c: real, n: nat)
    requires GpsRun(states, measurements) && Moves(truth, accels) && |accels| == |measurements|
    requires n < |states| && Within(states[0].p, Minus(State(states[0]), truth[0]), c) && c >= 0.0
    ensures Within(states[n].p, Minus(State(states[n]), truth[n]),
                   c + Spent(truth, accels, measurements, n))
  {
    hide Within, Step, Motion, Minus, PosDef, IsBlock, State, Block, Cost, Predicted, F, Q, Corrects;
    if n > 0 {
      GpsRunWithin(states, measurements, truth, accels, c, n - 1);
      GpsRunPosDef(states, measurements, n - 1);
      GpsStepWithin(states[n - 1], measurements[n - 1], truth[n - 1], accels[n - 1],
                    c + Spent(truth, accels, measurements, n - 1));
    }
  }

  /**
   In every run in the GPS configuration, however the aircraft accelerates and however wrong
   the measurements: with an initial squared error of at most c, the squared errors of
   altitude and speed are at most (c + sum of a^2 + sum of n^2 / 2) times their variances.
   */
  lemma {:induction false} GpsRunTracks(states: seq<Estimate>, measurements: seq<real>,
                                        truth: seq<Vec3>, accels: seq<real>, c: real, n: nat)
    requires GpsRun(states, measurements) && Moves(truth, accels) && |accels| == |measurements|
    requires n < |states|
    requires var e := Minus(State(states[0]), truth[0]); c >= 0.0 && e.x * e.x + e.y * e.y <= c
    ensures var (s, t) := (states[n], truth[n]);
            var scale := c + Spent(truth, accels, measurements, n);
            && (s.z - t.x) * (s.z - t.x) <= scale * s.p.m00
            && (s.zDot - t.y) * (s.zDot - t.y) <= scale * s.p.m11
  {
    hide Within, Motion, Spent, Step;
    var e := Minus(State(states[0]), truth[0]);
    assert Dot(e, e) == e.x * e.x + e.y * e.y;
    DiagWithin(1.0, e, c);
    assert Block(1.0, 0.0, 0.0, 1.0) == Diag(1.0, 1.0, 1.0);
    GpsRunWithin(states, measurements, truth, accels, c, n);
    AxesWithin(states[n].p, Minus(State(states[n]), truth[n]), c + Spent(truth, accels, measurements, n));
  }

  /** The first call after a reset, in numbers. */
  lemma FirstGpsStep(s: Estimate, gpsZ: real, k0: real, k1: real, y: real, k0y: real, k1y: real)
    requires s.p == Block(1.0, 0.0, 0.0, 1.0)
    requires 3.0634765625 * k0 == 1.0634765625 && 3.0634765625 * k1 == 0.2578125
    requires y == gpsZ - (s.z + s.zDot / 4.0) && k0y == k0 * y && k1y == k1 * y
    ensures var s' := Step(s, gpsZ, GPS_DT, GPS_R, GPS_SIGMA2);
            s'.z == s.z + s.zDot / 4.0 + k0y && s'.zDot == s.zDot + k1y
  {
    hide Predicted, Corrected, Gain, Innovation, Plus, Scale, F, Q, Block, Dot, Over;
    FirstGpsPrediction();
    var m := Propagate(s, GPS_DT, GPS_SIGMA2);
    BlockCorner(1.0634765625, 0.2578125, 0.2578125, 1.0625);
    InnovationOnAxes(m.p, GPS_R);
    GainBlock(1.0634765625, 0.2578125, 0.2578125, 1.0625, GPS_R);
    OverIs(1.0634765625, 0.2578125, 3.0634765625, k0, k1);
    StateIs(State(m), k0, k1, y, k0y, k1y);
  }

  lemma BlockCorner(a: real, b: real, c: real, d: real)
    ensures Block(a, b, c, d).m00 == a
  {
  }

  lemma FirstGpsPrediction()
    ensures Predicted(Block(1.0, 0.0, 0.0, 1.0), F(GPS_DT), Q(GPS_DT, GPS_SIGMA2)) ==
            Block(1.0634765625, 0.2578125, 0.2578125, 1.0625)
  {
    hide Predicted, F, Q;
    PredictBlock(1.0, 0.0, 0.0, 1.0, GPS_DT, GPS_SIGMA2);
    NoiseElements(0.25, 1.0, 0.0009765625, 0.0078125, 0.0625, 0.0009765625, 0.0078125, 0.0625);
  }

  lemma OverIs(a: real, b: real, e: real, k0: real, k1: real)
    requires e != 0.0 && e * k0 == a && e * k1 == b
    ensures Over(Vec3(a, b, 0.0), e) == Vec3(k0, k1, 0.0)
  {
  }

  // ------------------------------------------------------------ the in-place update

  class AltKalman {
    var z: real
    var zDot: real
    const p: array2<real>

    ghost predicate Valid()
      reads this, p
    {
      p.Length0 == 2 && p.Length1 == 2
    }

    ghost function Model(): Estimate
      requires Valid()
      reads this, p
    {
      Estimate(z, zDot, Block(p[0, 0], p[0, 1], p[1, 0], p[1, 1]))
    }

    constructor (initZ: real, initZDot: real)
      ensures Valid() && fresh(p)
      ensures Model() == Estimate(initZ, initZDot, Block(1.0, 0.0, 0.0, 1.0))
    {
      z, zDot := initZ, initZDot;
      p := new real[2, 2];
      new;
      Reset();
    }

    method Reset()
      requires Valid()
      modifies p
      ensures Model() == old(Model()).(p := Block(1.0, 0.0, 0.0, 1.0))
    {
      p[0, 0] := 1.0;
      p[0, 1] := 0.0;
      p[1, 0] := 0.0;
      p[1, 1] := 1.0;
    }

    // The noise matrix, before it is scaled
    static method NoiseTerms(DT: real, SIGMA2: real) returns (q00: real, q01: real, q10: real, q11: real)
      ensures var q := Q(DT, SIGMA2);
              && SIGMA2 * q00 == q.m00 && SIGMA2 * q01 == q.m01
              && SIGMA2 * q10 == q.m10 && SIGMA2 * q11 == q.m11
    {
      hide Q;
      q00, q01 := DT * DT * DT * DT / 4.0, DT * DT * DT / 2.0;
      q10, q11 := DT * DT * DT / 2.0, DT * DT;
      NoiseElements(DT, SIGMA2, q00, q01, q11, SIGMA2 * q00, SIGMA2 * q01, SIGMA2 * q11);
    }

    method PredictInPlace(DT: real, SIGMA2: real)
      requires Valid()
      modifies this, p
      ensures Model() == Propagate(old(Model()), DT, SIGMA2)
    {
      hide Predicted, F, Q;
      ghost var a, b, c, d := p[0, 0], p[0, 1], p[1, 0], p[1, 1];
      ghost var q := Q(DT, SIGMA2);
      PredictBlock(a, b, c, d, DT, SIGMA2);
      var q00, q01, q10, q11 := NoiseTerms(DT, SIGMA2);
      z := z + zDot * DT;
      assert Prod(p[1, 0], DT) == p[1, 0] * DT && Prod(p[1, 1], DT) == p[1, 1] * DT;
      assert p[0, 1] + p[1, 1] * DT == b + Prod(d, DT);
      assert Prod(DT, p[0, 1] + p[1, 1] * DT) == DT * (p[0, 1] + p[1, 1] * DT);
      p[0, 0] := p[0, 0] + p[1, 0] * DT + DT * (p[0, 1] + p[1, 1] * DT) + SIGMA2 * q00;
      assert Prod(p[1, 1], DT) == p[1, 1] * DT;
      p[0, 1] := p[0, 1] + p[1, 1] * DT + SIGMA2 * q01;
      assert Prod(p[1, 1], DT) == p[1, 1] * DT;
      p[1, 0] := p[1, 0] + p[1, 1] * DT + SIGMA2 * q10;
      p[1, 1] := p[1, 1] + SIGMA2 * q11;
    }

    method CorrectInPlace(gpsZ: real, R: real)
      requires Valid() && p[0, 0] + R != 0.0
      modifies this, p
      ensures Model() == Correct(old(Model()), gpsZ, R)
    {
      hide Corrected, Gain, Innovation;
      ghost var a, b, c, d := p[0, 0], p[0, 1], p[1, 0], p[1, 1];
      InnovationOnAxes(Model().p, R);
      GainBlock(a, b, c, d, R);
      OverBlock(a, c, a + R);
      var e := p[0, 0] + R;
      var k0 := p[0, 0] / e;
      var k1 := p[1, 0] / e;
      CorrectBlock(a, b, c, d, R, k0, k1);
      e := gpsZ - z;
      StateIs(State(Model()), k0, k1, e, k0 * e, k1 * e);
      z := z + k0 * e;
      zDot := zDot + k1 * e;
      assert Prod(k1, p[0, 0]) == -(-p[0, 0] * k1);
      p[1, 0] := -p[0, 0] * k1 + p[1, 0];
      assert Prod(k1, p[0, 1]) == -(-p[0, 1] * k1);
      p[1, 1] := -p[0, 1] * k1 + p[1, 1];
      assert Prod(k0, p[0, 0]) == p[0, 0] - p[0, 0] * (1.0 - k0);
      p[0, 0] := p[0, 0] * (1.0 - k0);
      assert Prod(k0, p[0, 1]) == p[0, 1] - p[0, 1] * (1.0 - k0);
      p[0, 1] := p[0, 1] * (1.0 - k0);
    }

    /** One call of alt_kalman with the given time step, noise and model variance. */
    method Run(gpsZ: real, DT: real, R: real, SIGMA2: real)
      requires Valid()
      modifies this, p
      ensures Model() == Step(old(Model()), gpsZ, DT, R, SIGMA2)
    {
      hide Propagate, Correct;
      PredictInPlace(DT, SIGMA2);
      ghost var s := Model();
      var e := p[0, 0] + R;
      if (if e < 0.0 then -e else e) > 0.00001 {
        CorrectInPlace(gpsZ, R);
      }
    }

    /** The configuration without a barometer. */
    method RunGps(gpsZ: real)
      requires Valid() && PosDef(Model().p)
      modifies this, p
      ensures Model() == Step(old(Model()), gpsZ, GPS_DT, GPS_R, GPS_SIGMA2)
      ensures PosDef(Model().p)
    {
      hide PosDef, Step, Predicted, F, Q, Quad, Block, Corrects;
      assert IsBlock(Model().p) by { IsBlockOfBlock(p[0, 0], p[0, 1], p[1, 0], p[1, 1]); }
      StepPosDef(Model(), gpsZ, GPS_DT, GPS_R, GPS_SIGMA2);
      Run(gpsZ, GPS_DT, GPS_R, GPS_SIGMA2);
    }
  }

  lemma StateIs(x: Vec3, k0: real, k1: real, e: real, k0e: real, k1e: real)
    requires k0e == k0 * e && k1e == k1 * e
    ensures Dot(E0, x) == x.x
    ensures Plus(x, Scale(e, Vec3(k0, k1, 0.0))) == Vec3(x.x + k0e, x.y + k1e, x.z)
  {
  }
}
