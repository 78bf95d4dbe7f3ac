/**
 The vertical filter of alt_vfilter.c: a Kalman filter on altitude, vertical speed and
 accelerometer bias.  Floating point numbers are modelled by reals.
 */
module KalmanCovariance {
  import opened LinearAlgebra

  function Over(v: Vec3, s: real): Vec3
    requires s != 0.0
  {
    Vec3(v.x / s, v.y / s, v.z / s)
  }

  /** S = h'P h + r, the variance of the innovation. */
  function Innovation(p: Mat3, h: Vec3, r: real): real {
    Quad(p, h) + r
  }

  lemma InnovationOnAxes(p: Mat3, r: real)
    ensures Innovation(p, E0, r) == p.m00 + r && Innovation(p, E1, r) == p.m11 + r
  {
    assert MulVec(p, E0) == Vec3(p.m00, p.m10, p.m20);
    assert MulVec(p, E1) == Vec3(p.m01, p.m11, p.m21);
  }

  /** K = P h / S */
  function Gain(p: Mat3, h: Vec3, r: real): Vec3
    requires Innovation(p, h, r) != 0.0
  {
    Over(MulVec(p, h), Innovation(p, h, r))
  }

  /** (I - K h') P, the covariance after measuring h'x with noise r. */
  function Corrected(p: Mat3, h: Vec3, r: real): Mat3
    requires Innovation(p, h, r) != 0.0
  {
    MatPlus(p, Outer(Scale(-1.0, Gain(p, h, r)), MulVec(Transpose(p), h)))
  }

  /** F P F' + Q, the covariance after a prediction step. */
  function Predicted(p: Mat3, f: Mat3, q: Mat3): Mat3 {
    MatPlus(Mul(Mul(f, p), Transpose(f)), q)
  }

  /** I - K h' */
  function ErrorStep(p: Mat3, h: Vec3, r: real): Mat3
    requires Innovation(p, h, r) != 0.0
  {
    MatPlus(Diag(1.0, 1.0, 1.0), Outer(Scale(-1.0, Gain(p, h, r)), h))
  }

  /** (I - K h') P (I - K h')' + r K K' */
  function Joseph(p: Mat3, h: Vec3, r: real): Mat3
    requires Innovation(p, h, r) != 0.0
  {
    var k, a := Gain(p, h, r), ErrorStep(p, h, r);
    MatPlus(Mul(Mul(a, p), Transpose(a)), Outer(Scale(r, k), k))
  }

  // ------------------------------------------------------------ symmetry

  lemma SymmetricPlus(a: Mat3, b: Mat3)
    requires Symmetric(a) && Symmetric(b)
    ensures Symmetric(MatPlus(a, b))
  {
  }

  lemma TransposeMul(a: Mat3, b: Mat3)
    ensures Transpose(Mul(a, b)) == Mul(Transpose(b), Transpose(a))
  {
    hide Dot;
    DotCommutes(Row0(Transpose(b)), Row0(a));
    DotCommutes(Row1(Transpose(b)), Row0(a));
    DotCommutes(Row2(Transpose(b)), Row0(a));
    DotCommutes(Row0(Transpose(b)), Row1(a));
    DotCommutes(Row1(Transpose(b)), Row1(a));
    DotCommutes(Row2(Transpose(b)), Row1(a));
    DotCommutes(Row0(Transpose(b)), Row2(a));
    DotCommutes(Row1(Transpose(b)), Row2(a));
    DotCommutes(Row2(Transpose(b)), Row2(a));
  }

  lemma MulAssoc(a: Mat3, b: Mat3, c: Mat3)
    ensures Mul(Mul(a, b), c) == Mul(a, Mul(b, c))
  {
    forall v ensures MulVec(Mul(Mul(a, b), c), v) == MulVec(Mul(a, Mul(b, c)), v) {
      MulAssocVec(Mul(a, b), c, v);
      MulAssocVec(a, b, MulVec(c, v));
      MulAssocVec(a, Mul(b, c), v);
      MulAssocVec(b, c, v);
    }
    MatExt(Mul(Mul(a, b), c), Mul(a, Mul(b, c)));
  }

  lemma SymmetricCongruence(f: Mat3, a: Mat3)
    requires Symmetric(a)
    ensures Symmetric(Mul(Mul(f, a), Transpose(f)))
  {
    hide Mul;
    TransposeMul(Mul(f, a), Transpose(f));
    TransposeMul(f, a);
    MulAssoc(f, a, Transpose(f));
    assert Transpose(Transpose(f)) == f;
  }

  // ------------------------------------------------------------ the quadratic form

  /** u'P v == v'P u for symmetric P. */
  lemma SymmetricForm(p: Mat3, u: Vec3, v: Vec3)
    requires Symmetric(p)
    ensures Dot(u, MulVec(p, v)) == Dot(v, MulVec(p, u))
  {
    Adjoint(p, u, v);
    DotCommutes(MulVec(p, u), v);
  }

  lemma QuadOfSum(p: Mat3, v: Vec3, s: real, h: Vec3)
    requires Symmetric(p)
    ensures Quad(p, Plus(v, Scale(s, h))) ==
            Quad(p, v) + 2.0 * Prod(s, Dot(h, MulVec(p, v))) + Prod(s, Prod(s, Quad(p, h)))
  {
    hide Prod, Dot, MulVec, Plus, Scale;
    var sh, pv, ph := Scale(s, h), MulVec(p, v), MulVec(p, h);
    MulVecPlus(p, v, sh);
    MulVecScale(p, s, h);
    DotPlus(Plus(v, sh), pv, Scale(s, ph));
    DotPlus(pv, v, sh);
    DotPlus(Scale(s, ph), v, sh);
    DotScale(s, h, pv);
    DotScale(s, v, ph);
    DotScale(s, ph, v);
    DotScale(s, h, Scale(s, ph));
    DotScale(s, h, ph);
    DotCommutes(v, Scale(s, ph));
    DotCommutes(sh, Scale(s, ph));
    DotCommutes(pv, v);
    DotCommutes(ph, v);
    SymmetricForm(p, h, v);
  }

  /** (h'P v)^2 <= (h'P h) (v'P v) for positive definite P. */
  lemma CauchySchwarz(p: Mat3, h: Vec3, v: Vec3)
    requires PosDef(p) && h != ZERO3
    ensures Quad(p, h) > 0.0
    ensures Prod(Dot(h, MulVec(p, v)), Dot(h, MulVec(p, v))) <= Prod(Quad(p, h), Quad(p, v))
  {
    hide Dot, MulVec, Plus, Scale, Quad;
    var q, b := Quad(p, h), Dot(h, MulVec(p, v));
    var w := Plus(v, Scale(-(b / q), h));
    QuadOfSum(p, v, -(b / q), h);
    QuadNonNegative(p, w);
    Discriminant(Quad(p, v), b, q, Quad(p, w));
  }

  lemma QuadNonNegative(p: Mat3, v: Vec3)
    requires PosDef(p)
    ensures Quad(p, v) >= 0.0
  {
    if v == ZERO3 { assert Dot(v, MulVec(p, v)) == 0.0; }
  }

  lemma Discriminant(a: real, b: real, q: real, d: real)
    requires q > 0.0 && d >= 0.0
    requires d == a + 2.0 * Prod(-(b / q), b) + Prod(-(b / q), Prod(-(b / q), q))
    ensures Prod(b, b) <= Prod(q, a)
  {
    var t := b / q;
    assert t * q == b;
    assert Prod(-t, Prod(-t, q)) == t * b;
    assert d == a - t * b;
    assert q * d == q * a - q * (t * b) == q * a - b * b;
    assert q * d >= 0.0;
  }

  // ------------------------------------------------------------ one correction

  lemma OuterVec(u: Vec3, w: Vec3, v: Vec3)
    ensures MulVec(Outer(u, w), v) == Scale(Dot(w, v), u)
  {
    hide Prod, Dot;
    DotScale(u.x, w, v);
    DotScale(u.y, w, v);
    DotScale(u.z, w, v);
    ProdCommutes(Dot(w, v), u.x);
    ProdCommutes(Dot(w, v), u.y);
    ProdCommutes(Dot(w, v), u.z);
  }

  lemma OverIsScale(v: Vec3, s: real)
    requires s != 0.0
    ensures Over(v, s) == Scale(1.0 / s, v)
    ensures Scale(s, Over(v, s)) == v
  {
  }

  lemma CorrectedVec(p: Mat3, h: Vec3, r: real, v: Vec3)
    requires Symmetric(p) && Innovation(p, h, r) != 0.0
    ensures MulVec(Corrected(p, h, r), v) ==
            Plus(MulVec(p, v), Scale(-Dot(h, MulVec(p, v)), Gain(p, h, r)))
  {
    hide Dot, Prod, MulVec, Plus, Innovation, Gain, Outer, MatPlus;
    var k, ph, b := Gain(p, h, r), MulVec(p, h), Dot(h, MulVec(p, v));
    MatPlusVec(p, Outer(Scale(-1.0, k), ph), v);
    OuterVec(Scale(-1.0, k), ph, v);
    DotCommutes(ph, v);
    SymmetricForm(p, v, h);
    ScaleScale(b, -1.0, k);
    MinusOne(b);
  }

  lemma ScaleScale(a: real, b: real, v: Vec3)
    ensures Scale(a, Scale(b, v)) == Scale(Prod(a, b), v)
  {
    hide Prod;
    ProdAssoc(a, b, v.x);
    ProdAssoc(a, b, v.y);
    ProdAssoc(a, b, v.z);
  }

  lemma MinusOne(b: real)
    ensures Prod(b, -1.0) == -b
  {
  }

  /** v'P v decreases by (h'P v)^2 / S. */
  lemma CorrectedQuad(p: Mat3, h: Vec3, r: real, v: Vec3)
    requires Symmetric(p) && Innovation(p, h, r) != 0.0
    ensures var b := Dot(h, MulVec(p, v));
            Quad(Corrected(p, h, r), v) == Quad(p, v) - Prod(b, b) / Innovation(p, h, r)
  {
    hide Dot, MulVec, Plus, Innovation, Scale, Corrected, Over;
    var k, s, b := Gain(p, h, r), Innovation(p, h, r), Dot(h, MulVec(p, v));
    CorrectedVec(p, h, r, v);
    DotPlus(v, MulVec(p, v), Scale(-b, k));
    DotScale(-b, v, k);
    OverIsScale(MulVec(p, h), s);
    DotScale(1.0 / s, v, MulVec(p, h));
    SymmetricForm(p, v, h);
    assert Prod(-b, Prod(1.0 / s, b)) == -(Prod(b, b) / s);
  }

  lemma SymmetricOuter(c: Vec3, s: real)
    requires s != 0.0
    ensures Symmetric(Outer(Scale(-1.0, Over(c, s)), c))
  {
    assert Prod(Prod(-1.0, c.x / s), c.y) == Prod(Prod(-1.0, c.y / s), c.x);
    assert Prod(Prod(-1.0, c.x / s), c.z) == Prod(Prod(-1.0, c.z / s), c.x);
    assert Prod(Prod(-1.0, c.y / s), c.z) == Prod(Prod(-1.0, c.z / s), c.y);
  }

  lemma CorrectedSymmetric(p: Mat3, h: Vec3, r: real)
    requires Symmetric(p) && Innovation(p, h, r) != 0.0
    ensures Symmetric(Corrected(p, h, r))
  {
    hide Outer, Over, Scale, MulVec, MatPlus;
    SymmetricOuter(MulVec(p, h), Innovation(p, h, r));
    SymmetricPlus(p, Outer(Scale(-1.0, Gain(p, h, r)), MulVec(p, h)));
  }

  /**
   A correction keeps the covariance symmetric positive definite, divides by more than r,
   and raises the variance in no direction.
   */
  lemma CorrectedPosDef(p: Mat3, h: Vec3, r: real)
    requires PosDef(p) && h != ZERO3 && r > 0.0
    ensures Innovation(p, h, r) > r
    ensures PosDef(Corrected(p, h, r))
    ensures forall v :: Quad(Corrected(p, h, r), v) <= Quad(p, v)
  {
    hide Quad, Corrected, Dot, MulVec, Symmetric;
    var s := Innovation(p, h, r);
    assert s > r by { CauchySchwarz(p, h, h); }
    assert Symmetric(Corrected(p, h, r)) by { CorrectedSymmetric(p, h, r); }
    forall v
      ensures Quad(Corrected(p, h, r), v) <= Quad(p, v)
      ensures v != ZERO3 ==> Quad(Corrected(p, h, r), v) > 0.0
    {
      var b := Dot(h, MulVec(p, v));
      CorrectedQuad(p, h, r, v);
      CauchySchwarz(p, h, v);
      QuadNonNegative(p, v);
      Shrinks(b, Quad(p, h), Quad(p, v), r);
    }
  }

  lemma Shrinks(b: real, q: real, a: real, r: real)
    requires q > 0.0 && r > 0.0 && a >= 0.0 && Prod(b, b) <= Prod(q, a)
    ensures a - Prod(b, b) / (q + r) <= a
    ensures a > 0.0 ==> a - Prod(b, b) / (q + r) > 0.0
  {
    var s, c := q + r, Prod(b, b);
    var d := c / s;
    assert d * s == c && c >= 0.0;
    assert d >= 0.0;
    if a > 0.0 {
      assert (a - d) * s == a * q + a * r - c;
      assert a * r > 0.0;
      assert a - d > 0.0;
    }
  }

  ghost predicate PosSemiDef(a: Mat3) {
    Symmetric(a) && forall v :: Quad(a, v) >= 0.0
  }

  // F' maps no other vector to zero
  ghost predicate Injective(f: Mat3) {
    forall v: Vec3 :: v != ZERO3 ==> MulVec(Transpose(f), v) != ZERO3
  }

  /** A prediction keeps the covariance symmetric positive definite. */
  lemma PredictedPosDef(p: Mat3, f: Mat3, q: Mat3)
    requires PosDef(p) && Injective(f) && PosSemiDef(q)
    ensures PosDef(Predicted(p, f, q))
  {
    hide Quad, Mul, MatPlus, Symmetric, MulVec, Transpose;
    var fpf := Mul(Mul(f, p), Transpose(f));
    SymmetricCongruence(f, p);
    SymmetricPlus(fpf, q);
    forall v: Vec3 | v != ZERO3 ensures Quad(Predicted(p, f, q), v) > 0.0 {
      QuadPlus(fpf, q, v);
      QuadCongruence(f, p, v);
    }
  }

  lemma DiagPosDef(a: real, b: real, c: real)
    requires a > 0.0 && b > 0.0 && c > 0.0
    ensures PosDef(Diag(a, b, c))
  {
    forall v: Vec3 | v != ZERO3 ensures Quad(Diag(a, b, c), v) > 0.0 {
      var x, y, z := v.x, v.y, v.z;
      assert MulVec(Diag(a, b, c), v) == Vec3(a * x, b * y, c * z);
      assert Quad(Diag(a, b, c), v) == Prod(x, a * x) + Prod(y, b * y) + Prod(z, c * z);
      assert Prod(x, a * x) == a * (x * x) && Prod(y, b * y) == b * (y * y) && Prod(z, c * z) == c * (z * z);
      WeightedSquare(a, x);
      WeightedSquare(b, y);
      WeightedSquare(c, z);
    }
  }

  lemma WeightedSquare(a: real, x: real)
    requires a > 0.0
    ensures a * (x * x) >= 0.0 && (x != 0.0 ==> a * (x * x) > 0.0)
  {
    assert x * x >= 0.0;
    if x != 0.0 { assert x * x > 0.0; }
  }

  // What -K times a row adds to a matrix
  lemma AddOuterProd(p: Mat3, k0: real, k1: real, k2: real, w0: real, w1: real, w2: real)
    ensures MatPlus(p, Outer(Scale(-1.0, Vec3(k0, k1, k2)), Vec3(w0, w1, w2))) == Mat3(
      p.m00 - Prod(k0, w0), p.m01 - Prod(k0, w1), p.m02 - Prod(k0, w2),
      p.m10 - Prod(k1, w0), p.m11 - Prod(k1, w1), p.m12 - Prod(k1, w2),
      p.m20 - Prod(k2, w0), p.m21 - Prod(k2, w1), p.m22 - Prod(k2, w2))
  {
    hide Prod;
    NegProd(k0, w0);
    NegProd(k0, w1);
    NegProd(k0, w2);
    NegProd(k1, w0);
    NegProd(k1, w1);
    NegProd(k1, w2);
    NegProd(k2, w0);
    NegProd(k2, w1);
    NegProd(k2, w2);
  }

  lemma NegProd(a: real, b: real)
    ensures Prod(Prod(-1.0, a), b) == -Prod(a, b)
  {
  }

  lemma AddOuter(p: Mat3, k0: real, k1: real, k2: real, w0: real, w1: real, w2: real)
    ensures MatPlus(p, Outer(Scale(-1.0, Vec3(k0, k1, k2)), Vec3(w0, w1, w2))) == Mat3(
      p.m00 - k0 * w0, p.m01 - k0 * w1, p.m02 - k0 * w2,
      p.m10 - k1 * w0, p.m11 - k1 * w1, p.m12 - k1 * w2,
      p.m20 - k2 * w0, p.m21 - k2 * w1, p.m22 - k2 * w2)
  {
    hide Outer, MatPlus, Scale;
    AddOuterProd(p, k0, k1, k2, w0, w1, w2);
  }

  // ------------------------------------------------------------ Joseph form

  /** The update the code computes is the Joseph form of the Kalman update. */
  lemma CorrectedIsJoseph(p: Mat3, h: Vec3, r: real)
    requires Symmetric(p) && Innovation(p, h, r) != 0.0
    ensures Corrected(p, h, r) == Joseph(p, h, r)
  {
    forall v ensures MulVec(Corrected(p, h, r), v) == MulVec(Joseph(p, h, r), v) {
      CorrectedVec(p, h, r, v);
      JosephVec(p, h, r, v);
    }
    MatExt(Corrected(p, h, r), Joseph(p, h, r));
  }

  // I + u w'
  lemma RankOneVec(u: Vec3, w: Vec3, v: Vec3)
    ensures var a := MatPlus(Diag(1.0, 1.0, 1.0), Outer(u, w));
            && MulVec(a, v) == Plus(v, Scale(Dot(w, v), u))
            && MulVec(Transpose(a), v) == Plus(v, Scale(Dot(u, v), w))
  {
    hide Dot, Outer, Prod;
    var i := Diag(1.0, 1.0, 1.0);
    IdentityVec(v);
    MatPlusVec(i, Outer(u, w), v);
    OuterVec(u, w, v);
    MatPlusVec(i, Outer(w, u), v);
    OuterVec(w, u, v);
    TransposeOuter(u, w);
  }

  lemma IdentityVec(v: Vec3)
    ensures MulVec(Diag(1.0, 1.0, 1.0), v) == v
  {
  }

  lemma TransposeOuter(u: Vec3, w: Vec3)
    ensures Transpose(Outer(u, w)) == Outer(w, u)
  {
    hide Prod;
    ProdCommutes(u.x, w.x);
    ProdCommutes(u.x, w.y);
    ProdCommutes(u.x, w.z);
    ProdCommutes(u.y, w.x);
    ProdCommutes(u.y, w.y);
    ProdCommutes(u.y, w.z);
    ProdCommutes(u.z, w.x);
    ProdCommutes(u.z, w.y);
    ProdCommutes(u.z, w.z);
  }

  lemma PlusScale(a: Vec3, s: real, t: real, k: Vec3)
    ensures Plus(Plus(a, Scale(s, k)), Scale(t, k)) == Plus(a, Scale(s + t, k))
  {
    hide Prod;
    ProdPlus(k.x, s, t);
    ProdPlus(k.y, s, t);
    ProdPlus(k.z, s, t);
  }

  lemma JosephVec(p: Mat3, h: Vec3, r: real, v: Vec3)
    requires Innovation(p, h, r) != 0.0
    ensures MulVec(Joseph(p, h, r), v) ==
            Plus(MulVec(p, v), Scale(-Dot(h, MulVec(p, v)), Gain(p, h, r)))
  {
    hide Dot, MulVec, Plus, Scale, Over, MatPlus, Outer, Diag, Mul, Transpose;
    var k, s, q := Gain(p, h, r), Innovation(p, h, r), Quad(p, h);
    var pv, ph, b, c := MulVec(p, v), MulVec(p, h), Dot(h, MulVec(p, v)), Dot(k, v);
    var a := MatPlus(Diag(1.0, 1.0, 1.0), Outer(Scale(-1.0, k), h));
    RankOneVec(Scale(-1.0, k), h, v);
    DotScale(-1.0, k, v);
    // x = P (A'v) = P v - c P h
    var x := Plus(pv, Scale(-c, ph));
    assert MulVec(p, MulVec(Transpose(a), v)) == x by {
      MulVecPlus(p, v, Scale(-c, h));
      MulVecScale(p, -c, h);
    }
    // A x = x - (h'x) k
    var d := Dot(h, x);
    assert d == b - Prod(c, q) by {
      DotPlus(h, pv, Scale(-c, ph));
      DotScale(-c, h, ph);
    }
    RankOneVec(Scale(-1.0, k), h, x);
    ScaleScale(d, -1.0, k);
    MinusOne(d);
    MulAssocVec(Mul(a, p), Transpose(a), v);
    MulAssocVec(a, p, MulVec(Transpose(a), v));
    assert MulVec(Mul(Mul(a, p), Transpose(a)), v) == Plus(x, Scale(-d, k));
    // plus r k (k'v)
    OuterVec(Scale(r, k), k, v);
    ScaleScale(c, r, k);
    MatPlusVec(Mul(Mul(a, p), Transpose(a)), Outer(Scale(r, k), k), v);
    // all multiples of k
    OverIsScale(ph, s);
    ScaleScale(-c, s, k);
    PlusScale(pv, Prod(-c, s), -d, k);
    PlusScale(pv, Prod(-c, s) - d, Prod(c, r), k);
    assert Prod(-c, s) - d + Prod(c, r) == -b;
  }
  // ------------------------------------------------------------ the state

  /** x + K (m - h'x), the state after measuring m with noise r. */
  function CorrectedState(x: Vec3, p: Mat3, h: Vec3, r: real, m: real): Vec3
    requires Innovation(p, h, r) != 0.0
  {
    Plus(x, Scale(m - Dot(h, x), Gain(p, h, r)))
  }

  /**
   Measuring h't + n moves the error x - t by the matrix of the Joseph form and adds n K:
   the covariance of the corrected state is the Joseph form.
   */
  lemma CorrectedError(x: Vec3, p: Mat3, h: Vec3, r: real, t: Vec3, n: real)
    requires Innovation(p, h, r) != 0.0
    ensures Minus(CorrectedState(x, p, h, r, Dot(h, t) + n), t) ==
            Plus(MulVec(ErrorStep(p, h, r), Minus(x, t)), Scale(n, Gain(p, h, r)))
  {
    hide Dot, MulVec, Gain, Innovation, Outer, MatPlus, Diag, Prod;
    var k, e := Gain(p, h, r), Minus(x, t);
    var d := Dot(h, e);
    RankOneVec(Scale(-1.0, k), h, e);
    ScaleScale(d, -1.0, k);
    MinusOne(d);
    DotMinus(h, x, t);
    PlusScale(x, -d, n, k);
    PlusScale(e, -d, n, k);
  }

  /** What is left of the residual after the correction: S (m - h'x') == r (m - h'x). */
  lemma CorrectedResidual(x: Vec3, p: Mat3, h: Vec3, r: real, m: real)
    requires Innovation(p, h, r) != 0.0
    ensures Prod(Innovation(p, h, r), m - Dot(h, CorrectedState(x, p, h, r, m))) ==
            Prod(r, m - Dot(h, x))
  {
    hide Dot, MulVec, Plus, Scale, Over, Prod;
    var k, s, y, q := Gain(p, h, r), Innovation(p, h, r), m - Dot(h, x), Quad(p, h);
    DotPlus(h, x, Scale(y, k));
    DotScale(y, h, k);
    OverIsScale(MulVec(p, h), s);
    DotScale(s, h, k);
    ResidualTerms(s, q, r, y, Dot(h, k));
  }

  lemma ResidualTerms(s: real, q: real, r: real, y: real, d: real)
    requires s == q + r && Prod(s, d) == q
    ensures Prod(s, y - Prod(y, d)) == Prod(r, y)
  {
    assert s * (y - y * d) == s * y - (s * d) * y;
  }

  /** The gain is also what the corrected covariance gives: r K == P'h. */
  lemma GainFromCorrected(p: Mat3, h: Vec3, r: real)
    requires Symmetric(p) && Innovation(p, h, r) != 0.0
    ensures MulVec(Corrected(p, h, r), h) == Scale(r, Gain(p, h, r))
  {
    hide Dot, MulVec, Scale, Over, Corrected;
    var k, s, q := Gain(p, h, r), Innovation(p, h, r), Quad(p, h);
    CorrectedVec(p, h, r, h);
    OverIsScale(MulVec(p, h), s);
    PlusScale(Vec3(0.0, 0.0, 0.0), s, -q, k);
    ZeroPlus(Scale(s, k));
    ZeroPlus(Scale(r, k));
  }

  lemma ZeroPlus(v: Vec3)
    ensures Plus(Vec3(0.0, 0.0, 0.0), v) == v
  {
  }

  // ------------------------------------------------------------ the error and the covariance

  /** The error lies in the ellipsoid of the covariance, scaled by c: e e' <= c P. */
  ghost predicate Within(p: Mat3, e: Vec3, c: real) {
    forall v :: Prod(Dot(v, e), Dot(v, e)) <= Prod(c, Quad(p, v))
  }

  lemma SumSquared(a: real, b: real, c: real, d: real, q: real, u: real)
    requires c >= 0.0 && d >= 0.0 && q >= 0.0 && u >= 0.0
    requires Prod(a, a) <= Prod(c, q) && Prod(b, b) <= Prod(d, u)
    ensures Prod(a + b, a + b) <= Prod(c + d, q + u)
  {
    var ab, cu, dq := a * b, c * u, d * q;
    // (a b)^2 <= (c u) (d q), so 2 a b <= c u + d q
    assert ab * ab <= cu * dq by {
      var a2, b2, cq, du := a * a, b * b, c * q, d * u;
      SquarePositive(a, a2);
      SquarePositive(b, b2);
      ProductMonotone(a2, b2, cq, du);
      assert ab * ab == a2 * b2;
      assert cu * dq == cq * du;
    }
    NonNegativeProduct(c, u);
    NonNegativeProduct(d, q);
    MeanBound(ab, cu, dq);
    assert Prod(a + b, a + b) == a * a + 2.0 * ab + b * b;
    assert Prod(c + d, q + u) == c * q + cu + dq + d * u;
  }

  lemma ProductMonotone(a: real, b: real, c: real, d: real)
    requires 0.0 <= a <= c && 0.0 <= b <= d
    ensures a * b <= c * d
  {
    NonNegativeProduct(c - a, b);
    NonNegativeProduct(c, d - b);
  }

  lemma MeanBound(x: real, a: real, b: real)
    requires a >= 0.0 && b >= 0.0 && x * x <= a * b
    ensures 2.0 * x <= a + b
  {
    var y, m := 2.0 * x, a + b;
    NonNegative(a - b);
    assert m * m == 4.0 * (a * b) + (a - b) * (a - b);
    assert y * y == 4.0 * (x * x);
    SquaresOrdered(m, y);
  }

  lemma SquaresOrdered(m: real, y: real)
    requires m >= 0.0
    ensures y > m ==> y * y > m * m
  {
    if y > m {
      NonNegativeProduct(m, y - m);
      PositiveProduct(y - m, y, (y - m) * y);
    }
  }

  /** A prediction keeps the error in the ellipsoid: no scale is lost. */
  lemma PredictedWithin(p: Mat3, f: Mat3, q: Mat3, e: Vec3, c: real)
    requires Within(p, e, c) && c >= 0.0 && PosSemiDef(q)
    ensures Within(Predicted(p, f, q), MulVec(f, e), c)
  {
    hide Quad, Mul, MatPlus, Symmetric, MulVec, Transpose, Dot, Prod, Within;
    forall v
      ensures Prod(Dot(v, MulVec(f, e)), Dot(v, MulVec(f, e))) <= Prod(c, Quad(Predicted(p, f, q), v))
    {
      var w := MulVec(Transpose(f), v);
      WithinAt(p, e, c, w);
      Adjoint(f, v, e);
      QuadPlus(Mul(Mul(f, p), Transpose(f)), q, v);
      QuadCongruence(f, p, v);
      ProdPlus(c, Quad(p, w), Quad(q, v));
      ProdNonNegative(c, Quad(q, v));
    }
    WithinAll(Predicted(p, f, q), MulVec(f, e), c);
  }

  lemma ProdNonNegative(a: real, b: real)
    requires a >= 0.0 && b >= 0.0
    ensures Prod(a, b) >= 0.0
  {
  }

  lemma WithinAt(p: Mat3, e: Vec3, c: real, v: Vec3)
    requires Within(p, e, c)
    ensures Prod(Dot(v, e), Dot(v, e)) <= Prod(c, Quad(p, v))
  {
  }

  lemma WithinAll(p: Mat3, e: Vec3, c: real)
    requires forall v :: Prod(Dot(v, e), Dot(v, e)) <= Prod(c, Quad(p, v))
    ensures Within(p, e, c)
  {
  }

  lemma MovedWithinAt(p: Mat3, a: Mat3, r: real, k: Vec3, e: Vec3, c: real, n: real, d: real, v: Vec3)
    requires PosDef(p) && r > 0.0 && Within(p, e, c) && c >= 0.0
    requires d >= 0.0 && Prod(n, n) <= Prod(d, r)
    ensures var e' := Plus(MulVec(a, e), Scale(n, k));
            var p' := Predicted(p, a, Outer(Scale(r, k), k));
            Prod(Dot(v, e'), Dot(v, e')) <= Prod(c + d, Quad(p', v))
  {
    hide Quad, Mul, MatPlus, MulVec, Transpose, Dot, Prod, Within, Outer, Scale, Plus;
    var w, g := MulVec(Transpose(a), v), Dot(v, k);
    WithinAt(p, e, c, w);
    Adjoint(a, v, e);
    DotPlus(v, MulVec(a, e), Scale(n, k));
    DotScale(n, v, k);
    QuadPlus(Mul(Mul(a, p), Transpose(a)), Outer(Scale(r, k), k), v);
    QuadCongruence(a, p, v);
    QuadOuter(r, k, v);
    QuadNonNegative(p, w);
    NoiseShare(n, d, r, g);
    SumSquared(Dot(w, e), Prod(n, g), c, d, Quad(p, w), Prod(r, Prod(g, g)));
  }

  /**
   When the error is moved by a and disturbed by n along k, it stays in the ellipsoid of
   a P a' + r k k', the scale growing by no more than n^2 / r.
   */
  lemma MovedWithin(p: Mat3, a: Mat3, r: real, k: Vec3, e: Vec3, c: real, n: real, d: real)
    requires PosDef(p) && r > 0.0 && Within(p, e, c) && c >= 0.0
    requires d >= 0.0 && Prod(n, n) <= Prod(d, r)
    ensures Within(Predicted(p, a, Outer(Scale(r, k), k)), Plus(MulVec(a, e), Scale(n, k)), c + d)
  {
    hide Quad, MulVec, Dot, Prod, Within, Predicted, Outer, Scale, Plus, PosDef;
    var e' := Plus(MulVec(a, e), Scale(n, k));
    var p' := Predicted(p, a, Outer(Scale(r, k), k));
    forall v ensures Prod(Dot(v, e'), Dot(v, e')) <= Prod(c + d, Quad(p', v)) {
      MovedWithinAt(p, a, r, k, e, c, n, d, v);
    }
    WithinAll(p', e', c + d);
  }

  lemma QuadOuter(r: real, k: Vec3, v: Vec3)
    ensures Quad(Outer(Scale(r, k), k), v) == Prod(r, Prod(Dot(v, k), Dot(v, k)))
  {
    hide Dot, Prod, Outer, MulVec;
    var g := Dot(v, k);
    OuterVec(Scale(r, k), k, v);
    DotCommutes(k, v);
    DotScale(g, v, Scale(r, k));
    DotScale(r, v, k);
    ProdAssoc(r, g, g);
  }

  lemma NoiseShare(n: real, d: real, r: real, g: real)
    requires Prod(n, n) <= Prod(d, r) && r > 0.0
    ensures Prod(Prod(n, g), Prod(n, g)) <= Prod(d, Prod(r, Prod(g, g)))
    ensures Prod(r, Prod(g, g)) >= 0.0
  {
    var g2, nn, dr := g * g, n * n, d * r;
    SquarePositive(g, g2);
    NonNegativeProduct(r, g2);
    NonNegativeProduct(dr - nn, g2);
    assert (n * g) * (n * g) == nn * g2;
    assert d * (r * g2) == dr * g2;
  }

  /**
   A correction by a measurement with noise n keeps the error in the ellipsoid of the
   corrected covariance, the scale growing by no more than n^2 / r.
   */
  lemma CorrectedWithin(p: Mat3, h: Vec3, r: real, e: Vec3, c: real, n: real, d: real)
    requires PosDef(p) && Innovation(p, h, r) != 0.0 && r > 0.0
    requires Within(p, e, c) && c >= 0.0 && d >= 0.0 && Prod(n, n) <= Prod(d, r)
    ensures Within(Corrected(p, h, r),
                   Plus(MulVec(ErrorStep(p, h, r), e), Scale(n, Gain(p, h, r))), c + d)
  {
    hide Quad, MulVec, Dot, Prod, Within, Innovation, Gain, ErrorStep, Corrected, Scale, Plus,
         Symmetric, Outer, Mul, MatPlus;
    CorrectedIsJoseph(p, h, r);
    MovedWithin(p, ErrorStep(p, h, r), r, Gain(p, h, r), e, c, n, d);
  }

  // Cauchy and Schwarz, for a multiple of the identity
  lemma DiagWithin(a: real, e: Vec3, c: real)
    requires Dot(e, e) <= a * c
    ensures Within(Diag(a, a, a), e, c)
  {
    forall v ensures Prod(Dot(v, e), Dot(v, e)) <= Prod(c, Quad(Diag(a, a, a), v)) {
      DiagScale(a, v);
      DotScale(a, v, v);
      Lagrange(v, e);
      DotSelf(Cross(v, e));
      DotSelf(v);
      DiagShare(Dot(v, v), Dot(e, e), a, c);
    }
  }

  lemma DiagScale(a: real, v: Vec3)
    ensures MulVec(Diag(a, a, a), v) == Scale(a, v)
  {
  }

  lemma DiagShare(v2: real, e2: real, a: real, c: real)
    requires v2 >= 0.0 && e2 <= a * c
    ensures Prod(v2, e2) <= Prod(c, Prod(a, v2))
  {
    var ac := a * c;
    NonNegativeProduct(v2, ac - e2);
    assert c * (a * v2) == v2 * ac;
  }

  lemma AxesWithin(p: Mat3, e: Vec3, c: real)
    requires Within(p, e, c)
    ensures e.x * e.x <= c * p.m00 && e.y * e.y <= c * p.m11 && e.z * e.z <= c * p.m22
  {
    hide Within;
    var e2 := Vec3(0.0, 0.0, 1.0);
    WithinAt(p, e, c, E0);
    WithinAt(p, e, c, E1);
    WithinAt(p, e, c, e2);
    assert Dot(E0, e) == e.x && Dot(E1, e) == e.y && Dot(e2, e) == e.z;
    assert Quad(p, E0) == p.m00 && Quad(p, E1) == p.m11 && Quad(p, e2) == p.m22;
  }
}

module AltVFilter {
  import opened LinearAlgebra
  import opened KalmanCovariance

  const INIT_PXX := 10.0
  const QZZ := 0.001
  const QZDOTZDOT := 0.001
  const QBIASBIAS := 0.00001
  const R := 2.0

  /** The transition matrix the code applies to the covariance. */
  function F(dt: real): Mat3 {
    Mat3(1.0, dt, 0.0,
         0.0, 1.0, -dt,
         0.0, 0.0, 1.0)
  }

  function Q(): Mat3 {
    Diag(QZZ, QZDOTZDOT, QBIASBIAS)
  }

  datatype Filter = Filter(x: Vec3, p: Mat3)

  function Init(x: Vec3): Filter {
    Filter(x, Diag(INIT_PXX, INIT_PXX, INIT_PXX))
  }

  /** x := F x + (0, dt (accel + 9.81), 0),  P := F P F' + Q */
  function Predict(s: Filter, dt: real, accel: real): Filter {
    Filter(Plus(MulVec(F(dt), s.x), Vec3(0.0, Prod(dt, accel + 9.81), 0.0)),
           Predicted(s.p, F(dt), Q()))
  }

  /** x := x + K (meas - h'x),  P := (I - K h') P */
  function Update(s: Filter, h: Vec3, meas: real): Filter
    requires Innovation(s.p, h, R) != 0.0
  {
    Filter(CorrectedState(s.x, s.p, h, R, meas), Corrected(s.p, h, R))
  }

  // ------------------------------------------------------------ every run

  datatype Step = Propagate(accel: real) | UpdateZ(meas: real) | UpdateVz(meas: real)

  predicate CanApply(s: Filter, e: Step) {
    && (e.UpdateZ? ==> Innovation(s.p, E0, R) != 0.0)
    && (e.UpdateVz? ==> Innovation(s.p, E1, R) != 0.0)
  }

  function Apply(s: Filter, dt: real, e: Step): Filter
    requires CanApply(s, e)
  {
    match e
    case Propagate(accel) => Predict(s, dt, accel)
    case UpdateZ(meas) => Update(s, E0, meas)
    case UpdateVz(meas) => Update(s, E1, meas)
  }

  lemma FInjective(dt: real)
    ensures Injective(F(dt))
  {
    forall v: Vec3 | v != ZERO3 ensures MulVec(Transpose(F(dt)), v) != ZERO3 {
      assert MulVec(Transpose(F(dt)), v) == Vec3(v.x, dt * v.x + v.y, v.z - dt * v.y);
    }
  }

  lemma StepPosDef(s: Filter, dt: real, e: Step)
    requires PosDef(s.p)
    ensures Innovation(s.p, E0, R) > R && Innovation(s.p, E1, R) > R
    ensures CanApply(s, e) && PosDef(Apply(s, dt, e).p)
    ensures !e.Propagate? ==> forall v :: Quad(Apply(s, dt, e).p, v) <= Quad(s.p, v)
  {
    CorrectedPosDef(s.p, E0, R);
    CorrectedPosDef(s.p, E1, R);
    DiagPosDef(QZZ, QZDOTZDOT, QBIASBIAS);
    forall v ensures Quad(Q(), v) >= 0.0 { QuadNonNegative(Q(), v); }
    FInjective(dt);
    PredictedPosDef(s.p, F(dt), Q());
  }

  /** A run: states[i + 1] follows states[i] by steps[i]. */
  predicate Run(states: seq<Filter>, steps: seq<Step>, dt: real) {
    && |states| == |steps| + 1
    && states[0] == Init(states[0].x)
    && forall i :: 0 <= i < |steps| ==>
         CanApply(states[i], steps[i]) && states[i + 1] == Apply(states[i], dt, steps[i])
  }

  /**
   In every run the covariance is symmetric positive definite, both divisors exceed the
   measurement noise, and a measurement raises the variance in no direction.
   */
  lemma {:induction false} RunPosDef(states: seq<Filter>, steps: seq<Step>, dt: real, n: nat)
    requires Run(states, steps, dt) && n < |states|
    ensures PosDef(states[n].p)
    ensures Innovation(states[n].p, E0, R) > R && Innovation(states[n].p, E1, R) > R
    ensures n < |steps| && !steps[n].Propagate? ==>
              forall v :: Quad(states[n + 1].p, v) <= Quad(states[n].p, v)
  {
    if n == 0 {
      DiagPosDef(INIT_PXX, INIT_PXX, INIT_PXX);
    } else {
      RunPosDef(states, steps, dt, n - 1);
      StepPosDef(states[n - 1], dt, steps[n - 1]);
    }
    StepPosDef(states[n], dt, if n < |steps| then steps[n] else Propagate(0.0));
  }

  // ------------------------------------------------------------ what the estimate follows

  /** How altitude, vertical speed and bias move while the accelerometer shows accel. */
  function Motion(t: Vec3, dt: real, e: Step): Vec3 {
    match e
    case Propagate(accel) => Vec3(t.x + Prod(dt, t.y), t.y + Prod(dt, accel + 9.81 - t.z), t.z)
    case _ => t
  }

  // The error of a measurement
  function Noise(t: Vec3, e: Step): real {
    match e
    case Propagate(_) => 0.0
    case UpdateZ(meas) => meas - t.x
    case UpdateVz(meas) => meas - t.y
  }

  lemma FVec(v: Vec3, dt: real)
    ensures MulVec(F(dt), v) == Vec3(v.x + Prod(dt, v.y), v.y - Prod(dt, v.z), v.z)
  {
    ProdUnits(v.x);
    ProdUnits(v.y);
    ProdUnits(v.z);
    ProdOpposite(dt, v.z);
    hide Prod;
  }

  lemma ProdOpposite(a: real, b: real)
    ensures Prod(-a, b) == -Prod(a, b) == Prod(a, -b)
  {
  }

  /** A prediction moves the estimate as the vehicle moves. */
  lemma PredictMoves(s: Filter, dt: real, accel: real)
    ensures Predict(s, dt, accel).x == Motion(s.x, dt, Propagate(accel))
  {
    hide Predicted, MulVec, F, Prod;
    FVec(s.x, dt);
    ProdMinus(dt, accel + 9.81, s.x.z);
  }

  lemma PredictParts(s: Filter, dt: real, accel: real)
    ensures Predict(s, dt, accel) ==
            Filter(Motion(s.x, dt, Propagate(accel)), Predicted(s.p, F(dt), Q()))
  {
    PredictMoves(s, dt, accel);
    hide Motion, Predicted, F, Q, MulVec, Plus;
  }

  lemma MotionMinus(x: Vec3, t: Vec3, dt: real, accel: real)
    ensures Minus(Motion(x, dt, Propagate(accel)), Motion(t, dt, Propagate(accel))) ==
            MulVec(F(dt), Minus(x, t))
  {
    hide MulVec, F, Prod;
    FVec(Minus(x, t), dt);
    ProdMinus(dt, x.y, t.y);
    ProdMinus(dt, x.z, t.z);
    ProdMinus(dt, accel + 9.81, x.z);
    ProdMinus(dt, accel + 9.81, t.z);
  }

  /**
   One step and the error of the estimate: a prediction moves it by F, a measurement by the
   matrix of the Joseph form, plus the gain times the error of the measurement.
   */
  lemma StepError(s: Filter, dt: real, e: Step, t: Vec3)
    requires CanApply(s, e)
    ensures var (x', t') := (Apply(s, dt, e).x, Motion(t, dt, e));
            Minus(x', t') ==
            match e
            case Propagate(_) => MulVec(F(dt), Minus(s.x, t))
            case UpdateZ(_) => Plus(MulVec(ErrorStep(s.p, E0, R), Minus(s.x, t)),
                                    Scale(Noise(t, e), Gain(s.p, E0, R)))
            case UpdateVz(_) => Plus(MulVec(ErrorStep(s.p, E1, R), Minus(s.x, t)),
                                     Scale(Noise(t, e), Gain(s.p, E1, R)))
  {
    hide Predicted, Corrected, CorrectedState, Minus, Plus, Scale, MulVec, ErrorStep, Gain, F;
    AxisDots(t);
    match e
    case Propagate(accel) =>
      PredictMoves(s, dt, accel);
      MotionMinus(s.x, t, dt, accel);
    case UpdateZ(meas) => CorrectedError(s.x, s.p, E0, R, t, Noise(t, e));
    case UpdateVz(meas) => CorrectedError(s.x, s.p, E1, R, t, Noise(t, e));
  }

  lemma AxisDots(t: Vec3)
    ensures Dot(E0, t) == t.x && Dot(E1, t) == t.y
  {
  }

  /** After an altitude measurement: the estimate lies between the old one and the measurement. */
  lemma UpdateZMovesTowards(s: Filter, meas: real)
    requires PosDef(s.p) && Innovation(s.p, E0, R) != 0.0
    ensures var (before, after) := (meas - s.x.x, meas - Update(s, E0, meas).x.x);
            && (before > 0.0 ==> 0.0 < after < before)
            && (before < 0.0 ==> before < after < 0.0)
            && (before == 0.0 ==> after == 0.0)
  {
    hide PosDef, Innovation, Corrected, CorrectedState, Prod, Dot;
    StepPosDef(s, 0.0, UpdateZ(meas));
    AxisDots(s.x);
    AxisDots(Update(s, E0, meas).x);
    CorrectedResidual(s.x, s.p, E0, R, meas);
    Contracts(Innovation(s.p, E0, R), R, meas - s.x.x, meas - Update(s, E0, meas).x.x);
  }

  /** The same for the vertical speed. */
  lemma UpdateVzMovesTowards(s: Filter, meas: real)
    requires PosDef(s.p) && Innovation(s.p, E1, R) != 0.0
    ensures var (before, after) := (meas - s.x.y, meas - Update(s, E1, meas).x.y);
            && (before > 0.0 ==> 0.0 < after < before)
            && (before < 0.0 ==> before < after < 0.0)
            && (before == 0.0 ==> after == 0.0)
  {
    hide PosDef, Innovation, Corrected, CorrectedState, Prod, Dot;
    StepPosDef(s, 0.0, UpdateVz(meas));
    AxisDots(s.x);
    AxisDots(Update(s, E1, meas).x);
    CorrectedResidual(s.x, s.p, E1, R, meas);
    Contracts(Innovation(s.p, E1, R), R, meas - s.x.y, meas - Update(s, E1, meas).x.y);
  }

  lemma Contracts(s: real, r: real, y: real, z: real)
    requires s > r > 0.0 && Prod(s, z) == Prod(r, y)
    ensures y > 0.0 ==> 0.0 < z < y
    ensures y < 0.0 ==> y < z < 0.0
    ensures y == 0.0 ==> z == 0.0
  {
    assert s * z == r * y && s * (y - z) == (s - r) * y;
    SameSign(z, s);
    SameSign(-z, s);
    SameSign(y - z, s);
    SameSign(z - y, s);
    SameSign(y, r);
    SameSign(-y, r);
    SameSign(y, s - r);
    SameSign(-y, s - r);
  }

  // What a measurement may add to the scale: its squared error in units of the variance 2
  function Cost(n: real): (c: real)
    ensures c >= 0.0
  {
    NonNegative(n);
    n * n / 2.0
  }

  // The same for the first n steps of a run
  function Spent(truth: seq<Vec3>, steps: seq<Step>, n: nat): (c: real)
    requires n <= |steps| <= |truth|
    ensures c >= 0.0
  {
    if n == 0 then 0.0
    else Spent(truth, steps, n - 1) + Cost(Noise(truth[n - 1], steps[n - 1]))
  }

  /** The states the vehicle goes through during a run. */
  predicate Moves(truth: seq<Vec3>, steps: seq<Step>, dt: real) {
    && |truth| == |steps| + 1
    && forall i :: 0 <= i < |steps| ==> truth[i + 1] == Motion(truth[i], dt, steps[i])
  }

  lemma StepWithin(s: Filter, dt: real, e: Step, t: Vec3, c: real)
    requires PosDef(s.p) && CanApply(s, e) && Within(s.p, Minus(s.x, t), c) && c >= 0.0
    ensures var s' := Apply(s, dt, e);
            Within(s'.p, Minus(s'.x, Motion(t, dt, e)), c + Cost(Noise(t, e)))
  {
    hide PosDef, Within, Predicted, Corrected, CorrectedState, Minus, Plus, Scale, MulVec,
         ErrorStep, Gain, F, Motion, Innovation, Noise, Cost, Prod;
    StepError(s, dt, e, t);
    var n := Noise(t, e);
    CostMeans(n);
    match e
    case Propagate(accel) =>
      NoNoise(t, e);
      NoiseSemiDefinite();
      PredictedWithin(s.p, F(dt), Q(), Minus(s.x, t), c);
    case UpdateZ(meas) => CorrectedWithin(s.p, E0, R, Minus(s.x, t), c, n, Cost(n));
    case UpdateVz(meas) => CorrectedWithin(s.p, E1, R, Minus(s.x, t), c, n, Cost(n));
  }

  lemma NoNoise(t: Vec3, e: Step)
    requires e.Propagate?
    ensures Noise(t, e) == 0.0
  {
  }

  lemma CostMeans(n: real)
    ensures Prod(n, n) <= Prod(Cost(n), R)
    ensures n == 0.0 ==> Cost(n) == 0.0
  {
    var c := n * n / 2.0;
    assert c * 2.0 == n * n;
  }

  lemma NoiseSemiDefinite()
    ensures PosSemiDef(Q())
  {
    DiagPosDef(QZZ, QZDOTZDOT, QBIASBIAS);
    forall v ensures Quad(Q(), v) >= 0.0 { QuadNonNegative(Q(), v); }
  }

  lemma {:induction false} RunWithin(
    states: seq<Filter>, steps: seq<Step>, truth: seq<Vec3>, dt: real, c: real, n: nat)
    requires Run(states, steps, dt) && Moves(truth, steps, dt) && n < |states|
    requires Within(states[0].p, Minus(states[0].x, truth[0]), c) && c >= 0.0
    ensures Within(states[n].p, Minus(states[n].x, truth[n]), c + Spent(truth, steps, n))
  {
    hide Within, Apply, Motion, Minus, PosDef, Init, Noise, Cost, CanApply, Innovation;
    if n > 0 {
      RunWithin(states, steps, truth, dt, c, n - 1);
      RunPosDef(states, steps, dt, n - 1);
      StepWithin(states[n - 1], dt, steps[n - 1], truth[n - 1], c + Spent(truth, steps, n - 1));
    }
  }

  /**
   In every run, whatever is measured and however wrong the start: the squared error of the
   altitude is at most (c + sum of n^2 / R) times its variance in the filter, where the
   initial error is at most 10 c squared and n runs over the errors of the measurements so
   far.  The same holds for the vertical speed and the bias.
   */
  lemma {:induction false} RunTracks(states: seq<Filter>, steps: seq<Step>, truth: seq<Vec3>, dt: real, c: real, n: nat)
    requires Run(states, steps, dt) && Moves(truth, steps, dt) && n < |states|
    requires c >= 0.0 && Dot(Minus(states[0].x, truth[0]), Minus(states[0].x, truth[0])) <= 10.0 * c
    ensures var (e, p) := (Minus(states[n].x, truth[n]), states[n].p);
            var scale := c + Spent(truth, steps, n);
            && e.x * e.x <= scale * p.m00
            && e.y * e.y <= scale * p.m11
            && e.z * e.z <= scale * p.m22
  {
    hide Within, Apply, Motion, Minus, Spent;
    DiagWithin(INIT_PXX, Minus(states[0].x, truth[0]), c);
    RunWithin(states, steps, truth, dt, c, n);
    AxesWithin(states[n].p, Minus(states[n].x, truth[n]), c + Spent(truth, steps, n));
  }

  /** The first prediction from the initial covariance, in numbers. */
  lemma FirstPrediction(x: Vec3, dt: real, accel: real)
    ensures var a, b := 10.0 * dt, 10.001 + 10.0 * (dt * dt);
            Predict(Init(x), dt, accel).p == Mat3(b, a, 0.0, a, b, -a, 0.0, -a, 10.00001)
  {
    hide Predicted;
    PredictElements(Init(x).p, dt);
    ProdUnits(dt);
    assert Prod(dt, 10.0) == 10.0 * dt && Prod(dt, -10.0) == -(10.0 * dt);
    assert Prod(dt, Prod(dt, 10.0)) == 10.0 * (dt * dt);
  }

  lemma PlusOnAxis(v: Vec3, y: real, k: real, ky: real)
    requires ky == k * y
    ensures Plus(v, Scale(y, Vec3(k, 0.0, 0.0))) == Vec3(v.x + ky, v.y, v.z)
    ensures Plus(v, Scale(y, Vec3(0.0, k, 0.0))) == Vec3(v.x, v.y + ky, v.z)
  {
  }

  lemma OverTwelve(k: real)
    requires 12.0 * k == 10.0
    ensures Over(Vec3(10.0, 0.0, 0.0), 12.0) == Vec3(k, 0.0, 0.0)
    ensures Over(Vec3(0.0, 10.0, 0.0), 12.0) == Vec3(0.0, k, 0.0)
  {
    var u, v := Over(Vec3(10.0, 0.0, 0.0), 12.0), Over(Vec3(0.0, 10.0, 0.0), 12.0);
    hide Over;
    OverIsScale(Vec3(10.0, 0.0, 0.0), 12.0);
    OverIsScale(Vec3(0.0, 10.0, 0.0), 12.0);
    assert Scale(12.0, u) == Vec3(12.0 * u.x, 12.0 * u.y, 12.0 * u.z);
    assert Scale(12.0, v) == Vec3(12.0 * v.x, 12.0 * v.y, 12.0 * v.z);
  }

  /** The first correction from the initial covariance, in numbers: K is 10 / 12. */
  lemma FirstUpdateZ(x: Vec3, meas: real, k: real, ky: real)
    requires 12.0 * k == 10.0 && ky == k * (meas - x.x)
    ensures CanApply(Init(x), UpdateZ(meas))
    ensures Update(Init(x), E0, meas) ==
            Filter(Vec3(x.x + ky, x.y, x.z), Diag(10.0 - k * 10.0, 10.0, 10.0))
  {
    InnovationOnAxes(Init(x).p, R);
    hide MatPlus, Outer, MulVec, Transpose, Innovation, Dot, Plus, Scale, Over;
    OverTwelve(k);
    UpdateZElements(Init(x));
    PlusOnAxis(x, meas - x.x, k, ky);
    AddOuter(Init(x).p, k, 0.0, 0.0, 10.0, 0.0, 0.0);
  }

  lemma FirstUpdateVz(x: Vec3, meas: real, k: real, ky: real)
    requires 12.0 * k == 10.0 && ky == k * (meas - x.y)
    ensures CanApply(Init(x), UpdateVz(meas))
    ensures Update(Init(x), E1, meas) ==
            Filter(Vec3(x.x, x.y + ky, x.z), Diag(10.0, 10.0 - k * 10.0, 10.0))
  {
    InnovationOnAxes(Init(x).p, R);
    hide MatPlus, Outer, MulVec, Transpose, Innovation, Dot, Plus, Scale, Over;
    OverTwelve(k);
    UpdateVzElements(Init(x));
    PlusOnAxis(x, meas - x.y, k, ky);
    AddOuter(Init(x).p, 0.0, k, 0.0, 0.0, 10.0, 0.0);
  }

  // ------------------------------------------------------------ the code's formulas

  lemma PredictElements(p: Mat3, dt: real)
    ensures Predicted(p, F(dt), Q()) == Mat3(
      p.m00 + Prod(dt, p.m10 + p.m01 + Prod(dt, p.m11)) + QZZ,
      p.m01 + Prod(dt, p.m11 - p.m02 - Prod(dt, p.m12)),
      p.m02 + Prod(dt, p.m12),
      p.m10 + Prod(dt, -p.m20 + p.m11 - Prod(dt, p.m21)),
      p.m11 + Prod(dt, -p.m21 - p.m12 + Prod(dt, p.m22)) + QZDOTZDOT,
      p.m12 + Prod(dt, -p.m22),
      p.m20 + Prod(dt, p.m21),
      p.m21 + Prod(dt, -p.m22),
      p.m22 + QBIASBIAS)
  {
    FTimes(p, dt);
    TimesF(Mul(F(dt), p), dt);
    hide Prod, Mul;
    ProdPlus(dt, p.m01, Prod(dt, p.m11));
    ProdPlus(dt, p.m10, p.m01 + Prod(dt, p.m11));
    ProdMinus(dt, p.m12, Prod(dt, p.m22));
    ProdPlus(dt, p.m02, Prod(dt, p.m12));
    ProdMinus(dt, p.m11, p.m02 + Prod(dt, p.m12));
    ProdMinus(dt, p.m11, Prod(dt, p.m21));
    ProdMinus(dt, p.m11 - Prod(dt, p.m21), p.m20);
    ProdMinus(dt, Prod(dt, p.m22) - p.m21, p.m12);
    ProdMinus(dt, Prod(dt, p.m22), p.m21);
    ProdMinus(dt, 0.0, p.m22);
    ProdUnits(dt);
  }

  lemma ProdMinus(a: real, b: real, c: real)
    ensures Prod(a, b - c) == Prod(a, b) - Prod(a, c)
  {
  }

  lemma FTimes(p: Mat3, dt: real)
    ensures Mul(F(dt), p) == Mat3(
      p.m00 + Prod(dt, p.m10), p.m01 + Prod(dt, p.m11), p.m02 + Prod(dt, p.m12),
      p.m10 - Prod(dt, p.m20), p.m11 - Prod(dt, p.m21), p.m12 - Prod(dt, p.m22),
      p.m20, p.m21, p.m22)
  {
  }

  lemma TimesF(a: Mat3, dt: real)
    ensures Mul(a, Transpose(F(dt))) == Mat3(
      a.m00 + Prod(dt, a.m01), a.m01 - Prod(dt, a.m02), a.m02,
      a.m10 + Prod(dt, a.m11), a.m11 - Prod(dt, a.m12), a.m12,
      a.m20 + Prod(dt, a.m21), a.m21 - Prod(dt, a.m22), a.m22)
  {
  }

  lemma UpdateZElements(s: Filter)
    requires Innovation(s.p, E0, R) != 0.0
    ensures Innovation(s.p, E0, R) == s.p.m00 + R
    ensures Gain(s.p, E0, R) == Over(Vec3(s.p.m00, s.p.m10, s.p.m20), s.p.m00 + R)
    ensures Dot(E0, s.x) == s.x.x
    ensures MulVec(Transpose(s.p), E0) == Row0(s.p)
  {
  }

  lemma UpdateVzElements(s: Filter)
    requires Innovation(s.p, E1, R) != 0.0
    ensures Innovation(s.p, E1, R) == s.p.m11 + R
    ensures Gain(s.p, E1, R) == Over(Vec3(s.p.m01, s.p.m11, s.p.m21), s.p.m11 + R)
    ensures Dot(E1, s.x) == s.x.y
    ensures MulVec(Transpose(s.p), E1) == Row1(s.p)
  {
  }

  lemma OneMinus(k: real, m: real, a: real, b: real, c: real)
    requires m == 1.0 - k
    ensures m * a == a - k * a && m * b == b - k * b && m * c == c - k * c
  {
  }

  class AltFilter {
    var z: real
    var zdot: real
    var bias: real
    var zMeas: real
    const P: array2<real>
    const dt: real

    ghost predicate Valid()
      reads this, P
    {
      P.Length0 == 3 && P.Length1 == 3 && PosDef(Model().p)
    }

    ghost function Model(): Filter
      requires P.Length0 == 3 && P.Length1 == 3
      reads this, P
    {
      Filter(Vec3(z, zdot, bias),
             Mat3(P[0, 0], P[0, 1], P[0, 2], P[1, 0], P[1, 1], P[1, 2], P[2, 0], P[2, 1], P[2, 2]))
    }

    constructor (initZ: real, initZdot: real, initBias: real, dtVfilter: real)
      ensures Valid() && fresh(P) && dt == dtVfilter
      ensures Model() == Init(Vec3(initZ, initZdot, initBias))
    {
      z, zdot, bias, zMeas, dt := initZ, initZdot, initBias, 0.0, dtVfilter;
      P := new real[3, 3];
      new;
      var i := 0;
      while i < 3
        modifies P
        invariant 0 <= i <= 3
        invariant forall a, b :: 0 <= a < i && 0 <= b < 3 ==>
                                   P[a, b] == if a == b then INIT_PXX else 0.0
      {
        var j := 0;
        while j < 3
          modifies P
          invariant 0 <= j <= 3
          invariant forall a, b :: 0 <= a < i && 0 <= b < 3 ==>
                                     P[a, b] == if a == b then INIT_PXX else 0.0
          invariant forall b :: 0 <= b < j ==> P[i, b] == 0.0
        {
          P[i, j] := 0.0;
          j := j + 1;
        }
        P[i, i] := INIT_PXX;
        i := i + 1;
      }
      DiagPosDef(INIT_PXX, INIT_PXX, INIT_PXX);
    }

    method Store(p: Mat3)
      requires P.Length0 == 3 && P.Length1 == 3
      modifies P
      ensures Model() == old(Model()).(p := p)
    {
      P[0, 0], P[0, 1], P[0, 2] := p.m00, p.m01, p.m02;
      P[1, 0], P[1, 1], P[1, 2] := p.m10, p.m11, p.m12;
      P[2, 0], P[2, 1], P[2, 2] := p.m20, p.m21, p.m22;
    }

    // What the methods below compute is what the specification says, term by term

    lemma PredictCovTerms()
      requires P.Length0 == 3 && P.Length1 == 3
      ensures Predicted(Model().p, F(dt), Q()) == Mat3(
        P[0, 0] + dt * (P[1, 0] + P[0, 1] + dt * P[1, 1]) + QZZ,
        P[0, 1] + dt * (P[1, 1] - P[0, 2] - dt * P[1, 2]),
        P[0, 2] + dt * P[1, 2],
        P[1, 0] + dt * (-P[2, 0] + P[1, 1] - dt * P[2, 1]),
        P[1, 1] + dt * (-P[2, 1] - P[1, 2] + dt * P[2, 2]) + QZDOTZDOT,
        P[1, 2] + dt * (-P[2, 2]),
        P[2, 0] + dt * P[2, 1],
        P[2, 1] + dt * (-P[2, 2]),
        P[2, 2] + QBIASBIAS)
    {
      hide Predicted, F, Q;
      PredictElements(Model().p, dt);
      assert Prod(dt, P[1, 1]) == dt * P[1, 1];
      assert Prod(dt, P[1, 2]) == dt * P[1, 2];
      assert Prod(dt, P[2, 1]) == dt * P[2, 1];
      assert Prod(dt, P[2, 2]) == dt * P[2, 2];
      assert Prod(dt, -P[2, 2]) == dt * (-P[2, 2]);
      assert Prod(dt, P[1, 0] + P[0, 1] + dt * P[1, 1]) == dt * (P[1, 0] + P[0, 1] + dt * P[1, 1]);
      assert Prod(dt, P[1, 1] - P[0, 2] - dt * P[1, 2]) == dt * (P[1, 1] - P[0, 2] - dt * P[1, 2]);
      assert Prod(dt, -P[2, 0] + P[1, 1] - dt * P[2, 1]) == dt * (-P[2, 0] + P[1, 1] - dt * P[2, 1]);
      assert Prod(dt, -P[2, 1] - P[1, 2] + dt * P[2, 2]) == dt * (-P[2, 1] - P[1, 2] + dt * P[2, 2]);
    }

    lemma UpdateStateTerms(y: real, k0: real, k1: real, k2: real)
      requires P.Length0 == 3 && P.Length1 == 3
      ensures Plus(Model().x, Scale(y, Vec3(k0, k1, k2))) == Vec3(z + k0 * y, zdot + k1 * y, bias + k2 * y)
    {
      assert Prod(y, k0) == k0 * y && Prod(y, k1) == k1 * y && Prod(y, k2) == k2 * y;
    }

    lemma UpdateZCovTerms(k0: real, k1: real, k2: real)
      requires P.Length0 == 3 && P.Length1 == 3
      requires Innovation(Model().p, E0, R) != 0.0 && Vec3(k0, k1, k2) == Gain(Model().p, E0, R)
      ensures Corrected(Model().p, E0, R) ==
        Mat3((1.0 - k0) * P[0, 0], (1.0 - k0) * P[0, 1], (1.0 - k0) * P[0, 2],
             -k1 * P[0, 0] + P[1, 0], -k1 * P[0, 1] + P[1, 1], -k1 * P[0, 2] + P[1, 2],
             -k2 * P[0, 0] + P[2, 0], -k2 * P[0, 1] + P[2, 1], -k2 * P[0, 2] + P[2, 2])
    {
      hide PosDef, Outer, MatPlus, Innovation, Gain, Dot, MulVec, Transpose;
      UpdateZElements(Model());
      AddOuter(Model().p, k0, k1, k2, P[0, 0], P[0, 1], P[0, 2]);
      OneMinus(k0, 1.0 - k0, P[0, 0], P[0, 1], P[0, 2]);
    }

    lemma UpdateVzCovTerms(k0: real, k1: real, k2: real)
      requires P.Length0 == 3 && P.Length1 == 3
      requires Innovation(Model().p, E1, R) != 0.0 && Vec3(k0, k1, k2) == Gain(Model().p, E1, R)
      ensures Corrected(Model().p, E1, R) ==
        Mat3(-k0 * P[1, 0] + P[0, 0], -k0 * P[1, 1] + P[0, 1], -k0 * P[1, 2] + P[0, 2],
             (1.0 - k1) * P[1, 0], (1.0 - k1) * P[1, 1], (1.0 - k1) * P[1, 2],
             -k2 * P[1, 0] + P[2, 0], -k2 * P[1, 1] + P[2, 1], -k2 * P[1, 2] + P[2, 2])
    {
      hide PosDef, Outer, MatPlus, Innovation, Gain, Dot, MulVec, Transpose;
      UpdateVzElements(Model());
      AddOuter(Model().p, k0, k1, k2, P[1, 0], P[1, 1], P[1, 2]);
      OneMinus(k1, 1.0 - k1, P[1, 0], P[1, 1], P[1, 2]);
    }

    method AltVfPredict(accel: real)
      requires Valid()
      modifies this, P
      ensures Valid() && Model() == Predict(old(Model()), dt, accel)
    {
      hide Predicted, PosDef, MulVec, F, Q, Plus, Predict;
      StepPosDef(Model(), dt, Propagate(accel));
      PredictParts(Model(), dt, accel);
      var u := accel + 9.81;
      assert Prod(dt, zdot) == dt * zdot && Prod(dt, u - bias) == dt * (u - bias);
      z := z + dt * zdot;
      zdot := zdot + dt * (u - bias);
      assert Model().p == old(Model().p);
      PredictCov();
    }

    // The second half of the prediction
    method PredictCov()
      requires P.Length0 == 3 && P.Length1 == 3
      modifies P
      ensures Model() == old(Model()).(p := Predicted(old(Model()).p, F(dt), Q()))
    {
      hide Predicted, F, Q;
      PredictCovTerms();
      var fpf00 := P[0, 0] + dt * (P[1, 0] + P[0, 1] + dt * P[1, 1]);
      var fpf01 := P[0, 1] + dt * (P[1, 1] - P[0, 2] - dt * P[1, 2]);
      var fpf02 := P[0, 2] + dt * P[1, 2];
      var fpf10 := P[1, 0] + dt * (-P[2, 0] + P[1, 1] - dt * P[2, 1]);
      var fpf11 := P[1, 1] + dt * (-P[2, 1] - P[1, 2] + dt * P[2, 2]);
      var fpf12 := P[1, 2] + dt * (-P[2, 2]);
      var fpf20 := P[2, 0] + dt * P[2, 1];
      var fpf21 := P[2, 1] + dt * (-P[2, 2]);
      var fpf22 := P[2, 2];
      Store(Mat3(fpf00 + QZZ, fpf01, fpf02, fpf10, fpf11 + QZDOTZDOT, fpf12,
                 fpf20, fpf21, fpf22 + QBIASBIAS));
    }

    method AltVfUpdateZ(meas: real)
      requires Valid()
      modifies this, P
      ensures old(Innovation(Model().p, E0, R)) > R
      ensures Valid() && Model() == Update(old(Model()), E0, meas)
    {
      hide Corrected, PosDef, Innovation, Gain, Dot, Plus, Scale;
      StepPosDef(Model(), dt, UpdateZ(meas));
      UpdateZElements(Model());
      zMeas := meas;
      var y := meas - z;
      var S := P[0, 0] + R;
      var k1 := P[0, 0] * 1.0 / S;
      var k2 := P[1, 0] * 1.0 / S;
      var k3 := P[2, 0] * 1.0 / S;
      UpdateStateTerms(y, k1, k2, k3);
      z := z + k1 * y;
      zdot := zdot + k2 * y;
      bias := bias + k3 * y;
      assert Model().p == old(Model().p);
      UpdateZCovTerms(k1, k2, k3);
      Store(Mat3((1.0 - k1) * P[0, 0], (1.0 - k1) * P[0, 1], (1.0 - k1) * P[0, 2],
                 -k2 * P[0, 0] + P[1, 0], -k2 * P[0, 1] + P[1, 1], -k2 * P[0, 2] + P[1, 2],
                 -k3 * P[0, 0] + P[2, 0], -k3 * P[0, 1] + P[2, 1], -k3 * P[0, 2] + P[2, 2]));
    }

    method AltVfUpdateVz(vz: real)
      requires Valid()
      modifies this, P
      ensures old(Innovation(Model().p, E1, R)) > R
      ensures Valid() && Model() == Update(old(Model()), E1, vz)
    {
      hide Corrected, PosDef, Innovation, Gain, Dot, Plus, Scale;
      StepPosDef(Model(), dt, UpdateVz(vz));
      UpdateVzElements(Model());
      var yd := vz - zdot;
      var S := P[1, 1] + R;
      var k1 := P[0, 1] * 1.0 / S;
      var k2 := P[1, 1] * 1.0 / S;
      var k3 := P[2, 1] * 1.0 / S;
      UpdateStateTerms(yd, k1, k2, k3);
      z := z + k1 * yd;
      zdot := zdot + k2 * yd;
      bias := bias + k3 * yd;
      assert Model().p == old(Model().p);
      UpdateVzCovTerms(k1, k2, k3);
      Store(Mat3(-k1 * P[1, 0] + P[0, 0], -k1 * P[1, 1] + P[0, 1], -k1 * P[1, 2] + P[0, 2],
                 (1.0 - k2) * P[1, 0], (1.0 - k2) * P[1, 1], (1.0 - k2) * P[1, 2],
                 -k3 * P[1, 0] + P[2, 0], -k3 * P[1, 1] + P[2, 1], -k3 * P[1, 2] + P[2, 2]));
    }
  }
}
