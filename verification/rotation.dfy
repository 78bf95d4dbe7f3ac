/**
 Rotation algebra of pprz_algebra_float.h over the reals: quaternions, rotation matrices
 and Euler angles.  All matrices take vectors of the first frame to the second.
 */
module RotationAlgebra {
  import opened LinearAlgebra

  datatype Quat = Quat(qi: real, qx: real, qy: real, qz: real)

  function Norm2(q: Quat): real {
    Prod(q.qi, q.qi) + Prod(q.qx, q.qx) + Prod(q.qy, q.qy) + Prod(q.qz, q.qz)
  }

  predicate Unit(q: Quat) {
    Norm2(q) == 1.0
  }

  function QuatScale(s: real, q: Quat): Quat {
    Quat(Prod(s, q.qi), Prod(s, q.qx), Prod(s, q.qy), Prod(s, q.qz))
  }

  function Opposite(q: Quat): Quat {
    Quat(-q.qi, -q.qx, -q.qy, -q.qz)
  }

  /** FLOAT_QUAT_COMP */
  function QuatComp(a: Quat, b: Quat): Quat {
    Quat(Prod(a.qi, b.qi) - Prod(a.qx, b.qx) - Prod(a.qy, b.qy) - Prod(a.qz, b.qz),
         Prod(a.qi, b.qx) + Prod(a.qx, b.qi) + Prod(a.qy, b.qz) - Prod(a.qz, b.qy),
         Prod(a.qi, b.qy) - Prod(a.qx, b.qz) + Prod(a.qy, b.qi) + Prod(a.qz, b.qx),
         Prod(a.qi, b.qz) + Prod(a.qx, b.qy) - Prod(a.qy, b.qx) + Prod(a.qz, b.qi))
  }

  /** FLOAT_QUAT_COMP_INV */
  function QuatCompInv(c: Quat, b: Quat): Quat {
    Quat(Prod(c.qi, b.qi) + Prod(c.qx, b.qx) + Prod(c.qy, b.qy) + Prod(c.qz, b.qz),
         -Prod(c.qi, b.qx) + Prod(c.qx, b.qi) - Prod(c.qy, b.qz) + Prod(c.qz, b.qy),
         -Prod(c.qi, b.qy) + Prod(c.qx, b.qz) + Prod(c.qy, b.qi) - Prod(c.qz, b.qx),
         -Prod(c.qi, b.qz) - Prod(c.qx, b.qy) + Prod(c.qy, b.qx) + Prod(c.qz, b.qi))
  }

  /** FLOAT_QUAT_INV_COMP */
  function QuatInvComp(a: Quat, c: Quat): Quat {
    Quat(Prod(a.qi, c.qi) + Prod(a.qx, c.qx) + Prod(a.qy, c.qy) + Prod(a.qz, c.qz),
         Prod(a.qi, c.qx) - Prod(a.qx, c.qi) - Prod(a.qy, c.qz) + Prod(a.qz, c.qy),
         Prod(a.qi, c.qy) + Prod(a.qx, c.qz) - Prod(a.qy, c.qi) - Prod(a.qz, c.qx),
         Prod(a.qi, c.qz) - Prod(a.qx, c.qy) + Prod(a.qy, c.qx) - Prod(a.qz, c.qi))
  }

  /** FLOAT_RMAT_OF_QUAT, the form spelled out in full */
  function RmatOfQuatSlow(q: Quat): Mat3 {
    var (qx2, qy2, qz2) := (Prod(q.qx, q.qx), Prod(q.qy, q.qy), Prod(q.qz, q.qz));
    var (qiqx, qiqy, qiqz) := (Prod(q.qi, q.qx), Prod(q.qi, q.qy), Prod(q.qi, q.qz));
    var (qxqy, qxqz, qyqz) := (Prod(q.qx, q.qy), Prod(q.qx, q.qz), Prod(q.qy, q.qz));
    Mat3(1.0 - 2.0 * (qy2 + qz2), 2.0 * (qxqy + qiqz), 2.0 * (qxqz - qiqy),
         2.0 * (qxqy - qiqz), 1.0 - 2.0 * (qx2 + qz2), 2.0 * (qyqz + qiqx),
         2.0 * (qxqz + qiqy), 2.0 * (qyqz - qiqx), 1.0 - 2.0 * (qx2 + qy2))
  }

  /** FLOAT_RMAT_OF_QUAT, the default form; sqrt2 stands for M_SQRT2 */
  function RmatOfQuat(q: Quat, sqrt2: real): Mat3 {
    var (a, b, c, d) := (Prod(sqrt2, q.qi), Prod(sqrt2, q.qx), Prod(sqrt2, q.qy), Prod(sqrt2, q.qz));
    var a2_1 := Prod(a, a) - 1.0;
    var (ab, ac, ad, bc, bd, cd) :=
      (Prod(a, b), Prod(a, c), Prod(a, d), Prod(b, c), Prod(b, d), Prod(c, d));
    Mat3(a2_1 + Prod(b, b), bc + ad, bd - ac,
         bc - ad, a2_1 + Prod(c, c), cd + ab,
         bd + ac, cd - ab, a2_1 + Prod(d, d))
  }

  /** The matrix FLOAT_QUAT_VMULT applies: quadratic in the quaternion, no constant term. */
  function Hom(q: Quat): Mat3 {
    var (qi2, qx2, qy2, qz2) :=
      (Prod(q.qi, q.qi), Prod(q.qx, q.qx), Prod(q.qy, q.qy), Prod(q.qz, q.qz));
    var (qiqx, qiqy, qiqz) := (Prod(q.qi, q.qx), Prod(q.qi, q.qy), Prod(q.qi, q.qz));
    var (qxqy, qxqz, qyqz) := (Prod(q.qx, q.qy), Prod(q.qx, q.qz), Prod(q.qy, q.qz));
    Mat3(qi2 + qx2 - qy2 - qz2, 2.0 * (qxqy + qiqz), 2.0 * (qxqz - qiqy),
         2.0 * (qxqy - qiqz), qi2 - qx2 + qy2 - qz2, 2.0 * (qyqz + qiqx),
         2.0 * (qxqz + qiqy), 2.0 * (qyqz - qiqx), qi2 - qx2 - qy2 + qz2)
  }

  /** FLOAT_RMAT_COMP: m_a2c = m_b2c * m_a2b */
  function RmatComp(a2b: Mat3, b2c: Mat3): Mat3 {
    Mul(b2c, a2b)
  }

  // ------------------------------------------------------------ the three matrix forms

  lemma SlowIsHom(q: Quat)
    ensures RmatOfQuatSlow(q) == Hom(q) <==> Unit(q)
  {
    hide Prod;
    var s, h := RmatOfQuatSlow(q), Hom(q);
    assert s.m00 - h.m00 == 1.0 - Norm2(q);
    assert s.m11 - h.m11 == 1.0 - Norm2(q);
    assert s.m22 - h.m22 == 1.0 - Norm2(q);
  }

  lemma TwoProd(r: real, x: real, y: real)
    requires r * r == 2.0
    ensures Prod(Prod(r, x), Prod(r, y)) == 2.0 * Prod(x, y)
  {
    assert (r * x) * (r * y) == (r * r) * (x * y);
  }

  /** The fast form equals the slow form exactly on unit quaternions. */
  lemma FastIsSlow(q: Quat, r: real)
    requires r * r == 2.0
    ensures RmatOfQuat(q, r) == RmatOfQuatSlow(q) <==> Unit(q)
  {
    TwoProd(r, q.qi, q.qi);
    TwoProd(r, q.qx, q.qx);
    TwoProd(r, q.qy, q.qy);
    TwoProd(r, q.qz, q.qz);
    TwoProd(r, q.qi, q.qx);
    TwoProd(r, q.qi, q.qy);
    TwoProd(r, q.qi, q.qz);
    TwoProd(r, q.qx, q.qy);
    TwoProd(r, q.qx, q.qz);
    TwoProd(r, q.qy, q.qz);
    hide Prod;
    var f, s := RmatOfQuat(q, r), RmatOfQuatSlow(q);
    assert f.m00 - s.m00 == 2.0 * (Norm2(q) - 1.0);
    assert f.m11 - s.m11 == 2.0 * (Norm2(q) - 1.0);
    assert f.m22 - s.m22 == 2.0 * (Norm2(q) - 1.0);
  }

  // ------------------------------------------------------------ associativity

  // The three vector axes play the same part: turning x, y, z into y, z, x changes nothing

  function Turn(q: Quat): Quat {
    Quat(q.qi, q.qy, q.qz, q.qx)
  }

  lemma TurnComp(a: Quat, b: Quat)
    ensures QuatComp(Turn(a), Turn(b)) == Turn(QuatComp(a, b))
  {
    hide Prod;
  }

  lemma Distribute(s: real, p: real, q: real, r: real, t: real)
    ensures Prod(s, p - q - r - t) == Prod(s, p) - Prod(s, q) - Prod(s, r) - Prod(s, t)
    ensures Prod(s, p + q + r - t) == Prod(s, p) + Prod(s, q) + Prod(s, r) - Prod(s, t)
    ensures Prod(s, p - q + r + t) == Prod(s, p) - Prod(s, q) + Prod(s, r) + Prod(s, t)
    ensures Prod(s, p + q - r + t) == Prod(s, p) + Prod(s, q) - Prod(s, r) + Prod(s, t)
    ensures Prod(p - q - r - t, s) == Prod(p, s) - Prod(q, s) - Prod(r, s) - Prod(t, s)
    ensures Prod(p + q + r - t, s) == Prod(p, s) + Prod(q, s) + Prod(r, s) - Prod(t, s)
    ensures Prod(p - q + r + t, s) == Prod(p, s) - Prod(q, s) + Prod(r, s) + Prod(t, s)
    ensures Prod(p + q - r + t, s) == Prod(p, s) + Prod(q, s) - Prod(r, s) + Prod(t, s)
  {
  }

  lemma AssocRealPart(a: Quat, b: Quat, c: Quat)
    ensures QuatComp(QuatComp(a, b), c).qi == QuatComp(a, QuatComp(b, c)).qi
  {
    hide Prod;
    Distribute(c.qi, Prod(a.qi, b.qi), Prod(a.qx, b.qx), Prod(a.qy, b.qy), Prod(a.qz, b.qz));
    Distribute(c.qx, Prod(a.qi, b.qx), Prod(a.qx, b.qi), Prod(a.qy, b.qz), Prod(a.qz, b.qy));
    Distribute(c.qy, Prod(a.qi, b.qy), Prod(a.qx, b.qz), Prod(a.qy, b.qi), Prod(a.qz, b.qx));
    Distribute(c.qz, Prod(a.qi, b.qz), Prod(a.qx, b.qy), Prod(a.qy, b.qx), Prod(a.qz, b.qi));
    Distribute(a.qi, Prod(b.qi, c.qi), Prod(b.qx, c.qx), Prod(b.qy, c.qy), Prod(b.qz, c.qz));
    Distribute(a.qx, Prod(b.qi, c.qx), Prod(b.qx, c.qi), Prod(b.qy, c.qz), Prod(b.qz, c.qy));
    Distribute(a.qy, Prod(b.qi, c.qy), Prod(b.qx, c.qz), Prod(b.qy, c.qi), Prod(b.qz, c.qx));
    Distribute(a.qz, Prod(b.qi, c.qz), Prod(b.qx, c.qy), Prod(b.qy, c.qx), Prod(b.qz, c.qi));
    ProdAssoc(a.qi, b.qi, c.qi);
    ProdAssoc(a.qx, b.qx, c.qi);
    ProdAssoc(a.qy, b.qy, c.qi);
    ProdAssoc(a.qz, b.qz, c.qi);
    ProdAssoc(a.qi, b.qx, c.qx);
    ProdAssoc(a.qx, b.qi, c.qx);
    ProdAssoc(a.qy, b.qz, c.qx);
    ProdAssoc(a.qz, b.qy, c.qx);
    ProdAssoc(a.qi, b.qy, c.qy);
    ProdAssoc(a.qx, b.qz, c.qy);
    ProdAssoc(a.qy, b.qi, c.qy);
    ProdAssoc(a.qz, b.qx, c.qy);
    ProdAssoc(a.qi, b.qz, c.qz);
    ProdAssoc(a.qx, b.qy, c.qz);
    ProdAssoc(a.qy, b.qx, c.qz);
    ProdAssoc(a.qz, b.qi, c.qz);
  }

  lemma AssocFirstAxis(a: Quat, b: Quat, c: Quat)
    ensures QuatComp(QuatComp(a, b), c).qx == QuatComp(a, QuatComp(b, c)).qx
  {
    hide Prod;
    Distribute(c.qx, Prod(a.qi, b.qi), Prod(a.qx, b.qx), Prod(a.qy, b.qy), Prod(a.qz, b.qz));
    Distribute(c.qi, Prod(a.qi, b.qx), Prod(a.qx, b.qi), Prod(a.qy, b.qz), Prod(a.qz, b.qy));
    Distribute(c.qz, Prod(a.qi, b.qy), Prod(a.qx, b.qz), Prod(a.qy, b.qi), Prod(a.qz, b.qx));
    Distribute(c.qy, Prod(a.qi, b.qz), Prod(a.qx, b.qy), Prod(a.qy, b.qx), Prod(a.qz, b.qi));
    Distribute(a.qi, Prod(b.qi, c.qx), Prod(b.qx, c.qi), Prod(b.qy, c.qz), Prod(b.qz, c.qy));
    Distribute(a.qx, Prod(b.qi, c.qi), Prod(b.qx, c.qx), Prod(b.qy, c.qy), Prod(b.qz, c.qz));
    Distribute(a.qy, Prod(b.qi, c.qz), Prod(b.qx, c.qy), Prod(b.qy, c.qx), Prod(b.qz, c.qi));
    Distribute(a.qz, Prod(b.qi, c.qy), Prod(b.qx, c.qz), Prod(b.qy, c.qi), Prod(b.qz, c.qx));
    ProdAssoc(a.qi, b.qi, c.qx);
    ProdAssoc(a.qx, b.qx, c.qx);
    ProdAssoc(a.qy, b.qy, c.qx);
    ProdAssoc(a.qz, b.qz, c.qx);
    ProdAssoc(a.qi, b.qx, c.qi);
    ProdAssoc(a.qx, b.qi, c.qi);
    ProdAssoc(a.qy, b.qz, c.qi);
    ProdAssoc(a.qz, b.qy, c.qi);
    ProdAssoc(a.qi, b.qy, c.qz);
    ProdAssoc(a.qx, b.qz, c.qz);
    ProdAssoc(a.qy, b.qi, c.qz);
    ProdAssoc(a.qz, b.qx, c.qz);
    ProdAssoc(a.qi, b.qz, c.qy);
    ProdAssoc(a.qx, b.qy, c.qy);
    ProdAssoc(a.qy, b.qx, c.qy);
    ProdAssoc(a.qz, b.qi, c.qy);
  }

  /** FLOAT_QUAT_COMP is associative. */
  lemma CompAssoc(a: Quat, b: Quat, c: Quat)
    ensures QuatComp(QuatComp(a, b), c) == QuatComp(a, QuatComp(b, c))
  {
    hide QuatComp;
    var (a1, b1, c1) := (Turn(a), Turn(b), Turn(c));
    AssocRealPart(a, b, c);
    AssocFirstAxis(a, b, c);
    AssocFirstAxis(a1, b1, c1);
    AssocFirstAxis(Turn(a1), Turn(b1), Turn(c1));
    TurnTriple(a, b, c);
    TurnTriple(a1, b1, c1);
  }

  lemma TurnTriple(a: Quat, b: Quat, c: Quat)
    ensures QuatComp(QuatComp(Turn(a), Turn(b)), Turn(c)) == Turn(QuatComp(QuatComp(a, b), c))
    ensures QuatComp(Turn(a), QuatComp(Turn(b), Turn(c))) == Turn(QuatComp(a, QuatComp(b, c)))
  {
    hide QuatComp;
    TurnComp(a, b);
    TurnComp(QuatComp(a, b), c);
    TurnComp(b, c);
    TurnComp(a, QuatComp(b, c));
  }

  // ------------------------------------------------------------ undoing a composition

  function Conj(q: Quat): Quat {
    Quat(q.qi, -q.qx, -q.qy, -q.qz)
  }

  lemma ProdNeg(a: real, b: real)
    ensures Prod(-a, b) == -Prod(a, b) == Prod(a, -b)
  {
  }

  lemma InvCompIsComp(a: Quat, b: Quat)
    ensures QuatInvComp(a, b) == QuatComp(Conj(a), b)
    ensures QuatCompInv(a, b) == QuatComp(a, Conj(b))
  {
    hide Prod;
    ProdNeg(a.qi, b.qx);
    ProdNeg(a.qi, b.qy);
    ProdNeg(a.qi, b.qz);
    ProdNeg(a.qx, b.qi);
    ProdNeg(a.qx, b.qx);
    ProdNeg(a.qx, b.qy);
    ProdNeg(a.qx, b.qz);
    ProdNeg(a.qy, b.qi);
    ProdNeg(a.qy, b.qx);
    ProdNeg(a.qy, b.qy);
    ProdNeg(a.qy, b.qz);
    ProdNeg(a.qz, b.qi);
    ProdNeg(a.qz, b.qx);
    ProdNeg(a.qz, b.qy);
    ProdNeg(a.qz, b.qz);
  }

  lemma ConjProduct(q: Quat)
    ensures QuatComp(Conj(q), q) == Quat(Norm2(q), 0.0, 0.0, 0.0) == QuatComp(q, Conj(q))
  {
    hide Prod;
    NegBoth(q.qi, q.qx);
    NegBoth(q.qi, q.qy);
    NegBoth(q.qi, q.qz);
    NegBoth(q.qx, q.qi);
    NegBoth(q.qx, q.qx);
    NegBoth(q.qx, q.qy);
    NegBoth(q.qx, q.qz);
    NegBoth(q.qy, q.qi);
    NegBoth(q.qy, q.qx);
    NegBoth(q.qy, q.qy);
    NegBoth(q.qy, q.qz);
    NegBoth(q.qz, q.qi);
    NegBoth(q.qz, q.qx);
    NegBoth(q.qz, q.qy);
    NegBoth(q.qz, q.qz);
  }

  lemma RealComp(n: real, q: Quat)
    ensures QuatComp(Quat(n, 0.0, 0.0, 0.0), q) == QuatScale(n, q)
    ensures QuatComp(q, Quat(n, 0.0, 0.0, 0.0)) == QuatScale(n, q)
  {
  }

  /** FLOAT_QUAT_INV_COMP undoes FLOAT_QUAT_COMP up to the squared norm of the first factor. */
  lemma InvCompUndoes(a: Quat, b: Quat)
    ensures QuatInvComp(a, QuatComp(a, b)) == QuatScale(Norm2(a), b)
  {
    hide QuatComp, QuatInvComp, QuatScale, Norm2;
    InvCompIsComp(a, QuatComp(a, b));
    CompAssoc(Conj(a), a, b);
    ConjProduct(a);
    RealComp(Norm2(a), b);
  }

  /** FLOAT_QUAT_COMP_INV undoes FLOAT_QUAT_COMP up to the squared norm of the second factor. */
  lemma CompInvUndoes(a: Quat, b: Quat)
    ensures QuatCompInv(QuatComp(a, b), b) == QuatScale(Norm2(b), a)
  {
    hide QuatComp, QuatCompInv, QuatScale, Norm2;
    InvCompIsComp(QuatComp(a, b), b);
    CompAssoc(a, b, Conj(b));
    ConjProduct(b);
    RealComp(Norm2(b), a);
  }

  lemma ConjComp(a: Quat, b: Quat)
    ensures Conj(QuatComp(a, b)) == QuatComp(Conj(b), Conj(a))
  {
    hide Prod;
    NegBoth(b.qi, a.qi);
    NegBoth(b.qi, a.qx);
    NegBoth(b.qi, a.qy);
    NegBoth(b.qi, a.qz);
    NegBoth(b.qx, a.qi);
    NegBoth(b.qx, a.qx);
    NegBoth(b.qx, a.qy);
    NegBoth(b.qx, a.qz);
    NegBoth(b.qy, a.qi);
    NegBoth(b.qy, a.qx);
    NegBoth(b.qy, a.qy);
    NegBoth(b.qy, a.qz);
    NegBoth(b.qz, a.qi);
    NegBoth(b.qz, a.qx);
    NegBoth(b.qz, a.qy);
    NegBoth(b.qz, a.qz);
  }

  lemma NegBoth(a: real, b: real)
    ensures Prod(-a, -b) == Prod(a, b) == Prod(b, a)
    ensures Prod(-a, b) == -Prod(a, b) == Prod(a, -b)
  {
  }

  /** The squared norm of a composition is the product of the squared norms. */
  lemma CompNorm(a: Quat, b: Quat)
    ensures Norm2(QuatComp(a, b)) == Prod(Norm2(a), Norm2(b))
  {
    hide QuatComp, Norm2, Conj, Prod;
    var c := QuatComp(a, b);
    ConjProduct(c);
    ConjComp(a, b);
    CompAssoc(Conj(b), Conj(a), c);
    CompAssoc(Conj(a), a, b);
    ConjProduct(a);
    RealComp(Norm2(a), b);
    ScaleComp(Norm2(a), Conj(b), b);
    ConjProduct(b);
  }

  lemma ScaleComp(n: real, a: Quat, b: Quat)
    ensures QuatComp(a, QuatScale(n, b)) == QuatScale(n, QuatComp(a, b))
  {
    hide QuatComp;
    RealComp(n, b);
    RealComp(n, a);
    RealComp(n, QuatComp(a, b));
    CompAssoc(a, Quat(n, 0.0, 0.0, 0.0), b);
    CompAssoc(Quat(n, 0.0, 0.0, 0.0), a, b);
  }

  // ------------------------------------------------------------ composition of matrices

  function Pure(v: Vec3): Quat {
    Quat(0.0, v.x, v.y, v.z)
  }

  function TurnVec(v: Vec3): Vec3 {
    Vec3(v.y, v.z, v.x)
  }

  lemma TurnHom(q: Quat, v: Vec3)
    ensures MulVec(Hom(Turn(q)), TurnVec(v)) == TurnVec(MulVec(Hom(q), v))
    ensures Conj(Turn(q)) == Turn(Conj(q)) && Pure(TurnVec(v)) == Turn(Pure(v))
  {
    hide Prod;
    ProdCommutes(q.qx, q.qy);
    ProdCommutes(q.qx, q.qz);
    ProdCommutes(q.qy, q.qz);
  }

  // q* v, and then q* v q, component by component

  lemma HalfConjugation(q: Quat, v: Vec3)
    ensures QuatComp(Conj(q), Pure(v)) == Quat(
      Prod(q.qx, v.x) + Prod(q.qy, v.y) + Prod(q.qz, v.z),
      Prod(q.qi, v.x) - Prod(q.qy, v.z) + Prod(q.qz, v.y),
      Prod(q.qi, v.y) + Prod(q.qx, v.z) - Prod(q.qz, v.x),
      Prod(q.qi, v.z) - Prod(q.qx, v.y) + Prod(q.qy, v.x))
  {
    hide Prod;
    NegBoth(q.qx, v.x);
    NegBoth(q.qx, v.y);
    NegBoth(q.qx, v.z);
    NegBoth(q.qy, v.x);
    NegBoth(q.qy, v.y);
    NegBoth(q.qy, v.z);
    NegBoth(q.qz, v.x);
    NegBoth(q.qz, v.y);
    NegBoth(q.qz, v.z);
    ProdUnits(q.qi);
    ProdUnits(-q.qx);
    ProdUnits(-q.qy);
    ProdUnits(-q.qz);
  }

  lemma ThreeTerms(s: real, p: real, q: real, r: real)
    ensures Prod(p + q + r, s) == Prod(p, s) + Prod(q, s) + Prod(r, s)
    ensures Prod(p - q + r, s) == Prod(p, s) - Prod(q, s) + Prod(r, s)
    ensures Prod(p + q - r, s) == Prod(p, s) + Prod(q, s) - Prod(r, s)
  {
  }

  lemma HomTerms(p: real, q: real, r: real, t: real, s: real)
    ensures Prod(p + q - r - t, s) == Prod(p, s) + Prod(q, s) - Prod(r, s) - Prod(t, s)
    ensures Prod(2.0 * (p + q), s) == 2.0 * (Prod(p, s) + Prod(q, s))
    ensures Prod(2.0 * (p - q), s) == 2.0 * (Prod(p, s) - Prod(q, s))
  {
  }

  // x a y == x y a
  lemma Rearrange(x: real, a: real, y: real)
    ensures Prod(Prod(x, a), y) == Prod(Prod(x, y), a) == Prod(Prod(y, x), a)
  {
    assert (x * a) * y == (x * y) * a;
    assert Prod(x, a) == x * a && Prod(x, y) == x * y && Prod(y, x) == x * y;
  }

  lemma ConjugationRealPart(q: Quat, v: Vec3)
    ensures QuatComp(QuatComp(Conj(q), Pure(v)), q).qi == 0.0
  {
    hide Prod;
    HalfConjugation(q, v);
    var i, x, y, z := q.qi, q.qx, q.qy, q.qz;
    var a, b, c := v.x, v.y, v.z;
    ThreeTerms(i, Prod(x, a), Prod(y, b), Prod(z, c));
    ThreeTerms(x, Prod(i, a), Prod(y, c), Prod(z, b));
    ThreeTerms(y, Prod(i, b), Prod(x, c), Prod(z, a));
    ThreeTerms(z, Prod(i, c), Prod(x, b), Prod(y, a));
    Rearrange(x, a, i);
    Rearrange(y, b, i);
    Rearrange(z, c, i);
    Rearrange(i, a, x);
    Rearrange(y, c, x);
    Rearrange(z, b, x);
    Rearrange(i, b, y);
    Rearrange(x, c, y);
    Rearrange(z, a, y);
    Rearrange(i, c, z);
    Rearrange(x, b, z);
    Rearrange(y, a, z);
  }

  lemma ConjugationFirstAxis(q: Quat, v: Vec3)
    ensures QuatComp(QuatComp(Conj(q), Pure(v)), q).qx == MulVec(Hom(q), v).x
  {
    hide Prod;
    HalfConjugation(q, v);
    var i, x, y, z := q.qi, q.qx, q.qy, q.qz;
    var a, b, c := v.x, v.y, v.z;
    ThreeTerms(x, Prod(x, a), Prod(y, b), Prod(z, c));
    ThreeTerms(i, Prod(i, a), Prod(y, c), Prod(z, b));
    ThreeTerms(z, Prod(i, b), Prod(x, c), Prod(z, a));
    ThreeTerms(y, Prod(i, c), Prod(x, b), Prod(y, a));
    Rearrange(x, a, x);
    Rearrange(y, b, x);
    Rearrange(z, c, x);
    Rearrange(i, a, i);
    Rearrange(y, c, i);
    Rearrange(z, b, i);
    Rearrange(i, b, z);
    Rearrange(x, c, z);
    Rearrange(z, a, z);
    Rearrange(i, c, y);
    Rearrange(x, b, y);
    Rearrange(y, a, y);
    HomTerms(Prod(i, i), Prod(x, x), Prod(y, y), Prod(z, z), a);
    HomTerms(Prod(x, y), Prod(i, z), 0.0, 0.0, b);
    HomTerms(Prod(x, z), Prod(i, y), 0.0, 0.0, c);
  }

  /** The matrix of a quaternion applied to v is q* v q. */
  lemma HomIsConjugation(q: Quat, v: Vec3)
    ensures QuatComp(QuatComp(Conj(q), Pure(v)), q) == Pure(MulVec(Hom(q), v))
  {
    hide QuatComp, MulVec, Hom, Conj;
    var q1, v1 := Turn(q), TurnVec(v);
    ConjugationRealPart(q, v);
    ConjugationFirstAxis(q, v);
    ConjugationFirstAxis(q1, v1);
    ConjugationFirstAxis(Turn(q1), TurnVec(v1));
    TurnHom(q, v);
    TurnHom(q1, v1);
    TurnTriple(Conj(q), Pure(v), q);
    TurnTriple(Conj(q1), Pure(v1), q1);
  }

  /** The matrix of a composition is the composition of the matrices, for all quaternions. */
  lemma HomComp(a: Quat, b: Quat)
    ensures Hom(QuatComp(a, b)) == RmatComp(Hom(a), Hom(b))
  {
    forall v ensures MulVec(Hom(QuatComp(a, b)), v) == MulVec(Mul(Hom(b), Hom(a)), v) {
      HomCompVec(a, b, v);
    }
    MatExt(Hom(QuatComp(a, b)), Mul(Hom(b), Hom(a)));
  }

  lemma HomCompVec(a: Quat, b: Quat, v: Vec3)
    ensures MulVec(Hom(QuatComp(a, b)), v) == MulVec(Mul(Hom(b), Hom(a)), v)
  {
    hide QuatComp, MulVec, Hom, Conj, Mul;
    var c, w, t := QuatComp(a, b), MulVec(Hom(a), v), QuatComp(Conj(a), Pure(v));
    HomIsConjugation(c, v);
    HomIsConjugation(a, v);
    HomIsConjugation(b, w);
    MulAssocVec(Hom(b), Hom(a), v);
    ConjComp(a, b);
    CompAssoc(Conj(b), Conj(a), Pure(v));
    CompAssoc(QuatComp(Conj(b), t), a, b);
    CompAssoc(Conj(b), t, a);
    assert Pure(MulVec(Hom(c), v)) == Pure(MulVec(Hom(b), w));
  }

  /** FLOAT_RMAT_OF_QUAT of FLOAT_QUAT_COMP is FLOAT_RMAT_COMP of the matrices. */
  lemma RmatOfComp(a: Quat, b: Quat, sqrt2: real)
    requires Unit(a) && Unit(b) && sqrt2 * sqrt2 == 2.0
    ensures Unit(QuatComp(a, b))
    ensures RmatOfQuat(QuatComp(a, b), sqrt2) ==
            RmatComp(RmatOfQuat(a, sqrt2), RmatOfQuat(b, sqrt2))
  {
    hide QuatComp, Hom, RmatOfQuat, RmatOfQuatSlow, RmatComp, Norm2;
    CompNorm(a, b);
    HomComp(a, b);
    RmatIsHom(a, sqrt2);
    RmatIsHom(b, sqrt2);
    RmatIsHom(QuatComp(a, b), sqrt2);
  }

  lemma RmatIsHom(q: Quat, sqrt2: real)
    requires Unit(q) && sqrt2 * sqrt2 == 2.0
    ensures RmatOfQuat(q, sqrt2) == Hom(q) == RmatOfQuatSlow(q)
  {
    hide RmatOfQuat, RmatOfQuatSlow, Hom;
    FastIsSlow(q, sqrt2);
    SlowIsHom(q);
  }

  // ------------------------------------------------------------ Euler angles

  // Cosine and sine of the three half angles
  datatype HalfAngles = HalfAngles(cphi: real, sphi: real, ctheta: real, stheta: real,
                                   cpsi: real, spsi: real)

  predicate OnCircle(c: real, s: real) {
    Prod(c, c) + Prod(s, s) == 1.0
  }

  predicate AreAngles(h: HalfAngles) {
    OnCircle(h.cphi, h.sphi) && OnCircle(h.ctheta, h.stheta) && OnCircle(h.cpsi, h.spsi)
  }

  // The double-angle formulas

  function CosTwice(c: real, s: real): real { Prod(c, c) - Prod(s, s) }

  function SinTwice(c: real, s: real): real { 2.0 * Prod(c, s) }

  function Prod3(a: real, b: real, c: real): real { Prod(Prod(a, b), c) }

  /** FLOAT_QUAT_OF_EULERS */
  function QuatOfEulers(h: HalfAngles): Quat {
    Quat(Prod3(h.cphi, h.ctheta, h.cpsi) + Prod3(h.sphi, h.stheta, h.spsi),
         -Prod3(h.cphi, h.stheta, h.spsi) + Prod3(h.sphi, h.ctheta, h.cpsi),
         Prod3(h.cphi, h.stheta, h.cpsi) + Prod3(h.sphi, h.ctheta, h.spsi),
         Prod3(h.cphi, h.ctheta, h.spsi) - Prod3(h.sphi, h.stheta, h.cpsi))
  }

  /** FLOAT_RMAT_OF_EULERS_321, from the sine and cosine of the full angles */
  function RmatOfEulers(sphi: real, cphi: real, stheta: real, ctheta: real,
                        spsi: real, cpsi: real): Mat3 {
    Mat3(Prod(ctheta, cpsi), Prod(ctheta, spsi), -stheta,
         Prod3(sphi, stheta, cpsi) - Prod(cphi, spsi),
         Prod3(sphi, stheta, spsi) + Prod(cphi, cpsi), Prod(sphi, ctheta),
         Prod3(cphi, stheta, cpsi) + Prod(sphi, spsi),
         Prod3(cphi, stheta, spsi) - Prod(sphi, cpsi), Prod(cphi, ctheta))
  }

  function AxisX(c: real, s: real): Mat3 {
    Mat3(1.0, 0.0, 0.0, 0.0, c, s, 0.0, -s, c)
  }

  function AxisY(c: real, s: real): Mat3 {
    Mat3(c, 0.0, -s, 0.0, 1.0, 0.0, s, 0.0, c)
  }

  function AxisZ(c: real, s: real): Mat3 {
    Mat3(c, s, 0.0, -s, c, 0.0, 0.0, 0.0, 1.0)
  }

  lemma AxisMatrices(c: real, s: real)
    requires OnCircle(c, s)
    ensures Hom(Quat(c, s, 0.0, 0.0)) == AxisX(CosTwice(c, s), SinTwice(c, s))
    ensures Hom(Quat(c, 0.0, s, 0.0)) == AxisY(CosTwice(c, s), SinTwice(c, s))
    ensures Hom(Quat(c, 0.0, 0.0, s)) == AxisZ(CosTwice(c, s), SinTwice(c, s))
    ensures Unit(Quat(c, s, 0.0, 0.0)) && Unit(Quat(c, 0.0, s, 0.0)) && Unit(Quat(c, 0.0, 0.0, s))
  {
    hide Prod;
    ProdUnits(c);
    ProdUnits(s);
  }

  /** The quaternion of Euler angles is yaw, then pitch, then roll. */
  lemma EulersAreComposed(h: HalfAngles)
    ensures QuatOfEulers(h) == QuatComp(QuatComp(Quat(h.cpsi, 0.0, 0.0, h.spsi),
                                                 Quat(h.ctheta, 0.0, h.stheta, 0.0)),
                                        Quat(h.cphi, h.sphi, 0.0, 0.0))
  {
    YawPitch(h.cpsi, h.spsi, h.ctheta, h.stheta);
    hide Prod;
    ThreeFactors(h.cphi, h.ctheta, h.cpsi);
    ThreeFactors(h.cphi, h.ctheta, h.spsi);
    ThreeFactors(h.cphi, h.stheta, h.cpsi);
    ThreeFactors(h.cphi, h.stheta, h.spsi);
    ThreeFactors(h.sphi, h.ctheta, h.cpsi);
    ThreeFactors(h.sphi, h.ctheta, h.spsi);
    ThreeFactors(h.sphi, h.stheta, h.cpsi);
    ThreeFactors(h.sphi, h.stheta, h.spsi);
    ProdUnits(Prod(h.cpsi, h.ctheta));
    ProdUnits(Prod(h.cpsi, h.stheta));
    ProdUnits(Prod(h.spsi, h.ctheta));
    ProdUnits(Prod(h.spsi, h.stheta));
    ProdUnits(-Prod(h.spsi, h.stheta));
  }

  lemma YawPitch(cpsi: real, spsi: real, ctheta: real, stheta: real)
    ensures QuatComp(Quat(cpsi, 0.0, 0.0, spsi), Quat(ctheta, 0.0, stheta, 0.0)) ==
            Quat(Prod(cpsi, ctheta), -Prod(spsi, stheta), Prod(cpsi, stheta), Prod(spsi, ctheta))
  {
    hide Prod;
    ProdUnits(cpsi);
    ProdUnits(spsi);
    ProdUnits(ctheta);
    ProdUnits(stheta);
  }

  lemma ThreeFactors(a: real, b: real, c: real)
    ensures Prod3(a, b, c) == Prod(Prod(c, b), a)
    ensures Prod(-Prod(c, b), a) == -Prod3(a, b, c)
  {
    hide Prod;
    ProdCommutes(Prod(a, b), c);
    ProdCommutes(a, b);
    ProdAssoc(c, b, a);
    NegBoth(Prod(c, b), a);
  }

  /**
   FLOAT_RMAT_OF_QUAT of FLOAT_QUAT_OF_EULERS is FLOAT_RMAT_OF_EULERS.
   */
  lemma EulersAgree(h: HalfAngles, sqrt2: real)
    requires AreAngles(h) && sqrt2 * sqrt2 == 2.0
    ensures Unit(QuatOfEulers(h))
    ensures RmatOfQuat(QuatOfEulers(h), sqrt2) ==
            RmatOfEulers(SinTwice(h.cphi, h.sphi), CosTwice(h.cphi, h.sphi),
                         SinTwice(h.ctheta, h.stheta), CosTwice(h.ctheta, h.stheta),
                         SinTwice(h.cpsi, h.spsi), CosTwice(h.cpsi, h.spsi))
  {
    hide QuatComp, Hom, RmatOfQuat, RmatOfQuatSlow, RmatComp, RmatOfEulers, QuatOfEulers,
         SinTwice, CosTwice, AxisX, AxisY, AxisZ, Norm2, Prod;
    var qpsi, qtheta := Quat(h.cpsi, 0.0, 0.0, h.spsi), Quat(h.ctheta, 0.0, h.stheta, 0.0);
    var qphi := Quat(h.cphi, h.sphi, 0.0, 0.0);
    EulersAreComposed(h);
    AxisMatrices(h.cpsi, h.spsi);
    AxisMatrices(h.ctheta, h.stheta);
    AxisMatrices(h.cphi, h.sphi);
    RmatOfComp(qpsi, qtheta, sqrt2);
    RmatOfComp(QuatComp(qpsi, qtheta), qphi, sqrt2);
    RmatIsHom(QuatOfEulers(h), sqrt2);
    HomComp(QuatComp(qpsi, qtheta), qphi);
    HomComp(qpsi, qtheta);
    ThreeAxes(SinTwice(h.cphi, h.sphi), CosTwice(h.cphi, h.sphi),
              SinTwice(h.ctheta, h.stheta), CosTwice(h.ctheta, h.stheta),
              SinTwice(h.cpsi, h.spsi), CosTwice(h.cpsi, h.spsi));
  }

  lemma ThreeAxes(sphi: real, cphi: real, stheta: real, ctheta: real, spsi: real, cpsi: real)
    ensures RmatComp(RmatComp(AxisZ(cpsi, spsi), AxisY(ctheta, stheta)), AxisX(cphi, sphi)) ==
            RmatOfEulers(sphi, cphi, stheta, ctheta, spsi, cpsi)
  {
    PitchYaw(ctheta, stheta, cpsi, spsi);
    RollRows(cphi, sphi, Prod(ctheta, cpsi), Prod(ctheta, spsi), -stheta,
             -spsi, cpsi, 0.0, Prod(stheta, cpsi), Prod(stheta, spsi), ctheta);
    hide Prod, Mul;
    ProdAssoc(sphi, stheta, cpsi);
    ProdAssoc(sphi, stheta, spsi);
    ProdAssoc(cphi, stheta, cpsi);
    ProdAssoc(cphi, stheta, spsi);
    NegBoth(cphi, spsi);
    NegBoth(sphi, spsi);
    NegBoth(sphi, cpsi);
    ProdUnits(cphi);
    ProdUnits(-sphi);
  }

  lemma PitchYaw(c: real, s: real, cpsi: real, spsi: real)
    ensures Mul(AxisY(c, s), AxisZ(cpsi, spsi)) ==
            Mat3(Prod(c, cpsi), Prod(c, spsi), -s, -spsi, cpsi, 0.0, Prod(s, cpsi), Prod(s, spsi), c)
  {
    hide Prod;
    ProdUnits(c);
    ProdUnits(s);
    ProdUnits(-s);
    ProdUnits(cpsi);
    ProdUnits(spsi);
    ProdUnits(-spsi);
    ProdUnits(1.0);
    ProdCommutes(c, cpsi);
    ProdCommutes(c, spsi);
    ProdCommutes(s, cpsi);
    ProdCommutes(s, spsi);
  }

  // Rolling keeps the first row and turns the other two
  lemma RollRows(c: real, s: real, a: real, b: real, d: real, e: real, f: real, g: real,
                 h: real, i: real, j: real)
    ensures Mul(AxisX(c, s), Mat3(a, b, d, e, f, g, h, i, j)) ==
            Mat3(a, b, d,
                 Prod(c, e) + Prod(s, h), Prod(c, f) + Prod(s, i), Prod(c, g) + Prod(s, j),
                 Prod(-s, e) + Prod(c, h), Prod(-s, f) + Prod(c, i), Prod(-s, g) + Prod(c, j))
  {
    hide Prod;
    RollColumn(c, s, a, e, h);
    RollColumn(c, s, b, f, i);
    RollColumn(c, s, d, g, j);
  }

  lemma RollColumn(c: real, s: real, x: real, y: real, z: real)
    ensures Dot(Vec3(x, y, z), Vec3(1.0, 0.0, 0.0)) == x
    ensures Dot(Vec3(x, y, z), Vec3(0.0, c, s)) == Prod(c, y) + Prod(s, z)
    ensures Dot(Vec3(x, y, z), Vec3(0.0, -s, c)) == Prod(-s, y) + Prod(c, z)
  {
    hide Prod;
    ProdUnits(x);
    ProdUnits(y);
    ProdUnits(z);
    ProdCommutes(c, y);
    ProdCommutes(s, z);
    ProdCommutes(-s, y);
    ProdCommutes(c, z);
  }

  // ------------------------------------------------------------ back to a quaternion

  /** The number whose square root FLOAT_QUAT_OF_RMAT takes, by branch. */
  function Radicand(r: Mat3): real {
    if r.m00 + r.m11 + r.m22 > 0.0 then 1.0 + (r.m00 + r.m11 + r.m22)
    else if r.m00 > r.m11 && r.m00 > r.m22 then r.m00 - r.m11 - r.m22 + 1.0
    else if r.m11 > r.m22 then r.m11 - r.m00 - r.m22 + 1.0
    else r.m22 - r.m00 - r.m11 + 1.0
  }

  /** FLOAT_QUAT_OF_RMAT; root stands for the square root of the radicand. */
  function QuatOfRmat(r: Mat3, root: real): Quat
    requires root != 0.0
  {
    var four := 2.0 * root;
    if r.m00 + r.m11 + r.m22 > 0.0 then
      Quat(0.5 * root, (r.m12 - r.m21) / four, (r.m20 - r.m02) / four, (r.m01 - r.m10) / four)
    else if r.m00 > r.m11 && r.m00 > r.m22 then
      Quat((r.m12 - r.m21) / four, 0.5 * root, (r.m01 + r.m10) / four, (r.m20 + r.m02) / four)
    else if r.m11 > r.m22 then
      Quat((r.m20 - r.m02) / four, (r.m01 + r.m10) / four, 0.5 * root, (r.m12 + r.m21) / four)
    else
      Quat((r.m01 - r.m10) / four, (r.m20 + r.m02) / four, (r.m12 + r.m21) / four, 0.5 * root)
  }

  // The component the branch divides by
  function Pivot(q: Quat): real {
    var r := Hom(q);
    if r.m00 + r.m11 + r.m22 > 0.0 then q.qi
    else if r.m00 > r.m11 && r.m00 > r.m22 then q.qx
    else if r.m11 > r.m22 then q.qy
    else q.qz
  }

  /** The branch taken divides by a component whose square is at least 1/4. */
  lemma PivotIsLarge(q: Quat)
    requires Unit(q)
    ensures Prod(Pivot(q), Pivot(q)) >= 0.25
    ensures Radicand(Hom(q)) == 4.0 * Prod(Pivot(q), Pivot(q))
  {
    hide Prod;
  }

  lemma RootIsTwicePivot(k: real, root: real)
    requires root >= 0.0 && Prod(k, k) >= 0.25 && root * root == 4.0 * Prod(k, k)
    ensures root > 0.0 && (root == 2.0 * k || root == -2.0 * k)
  {
    assert (root - 2.0 * k) * (root + 2.0 * k) == root * root - 4.0 * (k * k);
    OneIsZero(root - 2.0 * k, root + 2.0 * k);
  }

  lemma Quotient(num: real, four: real, k: real, x: real)
    requires k != 0.0 && num == 4.0 * Prod(k, x)
    ensures four == 4.0 * k ==> num / four == x
    ensures four == -4.0 * k ==> num / four == -x
  {
    assert num == (4.0 * k) * x;
    assert num == (-4.0 * k) * (-x);
  }

  /**
   FLOAT_QUAT_OF_RMAT undoes FLOAT_RMAT_OF_QUAT: on all four branches the divisor is
   positive and the result is the quaternion or its opposite.
   */
  lemma QuatOfRmatUndoes(q: Quat, sqrt2: real, root: real)
    requires Unit(q) && sqrt2 * sqrt2 == 2.0
    requires root >= 0.0 && root * root == Radicand(RmatOfQuat(q, sqrt2))
    ensures root > 0.0
    ensures var back := QuatOfRmat(RmatOfQuat(q, sqrt2), root); back == q || back == Opposite(q)
  {
    RmatIsHom(q, sqrt2);
    PivotIsLarge(q);
    var k := Pivot(q);
    RootIsTwicePivot(k, root);
    Components(q, root);
  }

  lemma Components(q: Quat, root: real)
    requires root != 0.0 && (root == 2.0 * Pivot(q) || root == -2.0 * Pivot(q))
    ensures var back := QuatOfRmat(Hom(q), root); back == q || back == Opposite(q)
  {
    var r, k, four := Hom(q), Pivot(q), 2.0 * root;
    Differences(q);
    Quotient(4.0 * Prod(k, q.qi), four, k, q.qi);
    Quotient(4.0 * Prod(k, q.qx), four, k, q.qx);
    Quotient(4.0 * Prod(k, q.qy), four, k, q.qy);
    Quotient(4.0 * Prod(k, q.qz), four, k, q.qz);
  }

  lemma Differences(q: Quat)
    ensures var r := Hom(q);
            && r.m12 - r.m21 == 4.0 * Prod(q.qi, q.qx) == 4.0 * Prod(q.qx, q.qi)
            && r.m20 - r.m02 == 4.0 * Prod(q.qi, q.qy) == 4.0 * Prod(q.qy, q.qi)
            && r.m01 - r.m10 == 4.0 * Prod(q.qi, q.qz) == 4.0 * Prod(q.qz, q.qi)
            && r.m01 + r.m10 == 4.0 * Prod(q.qx, q.qy) == 4.0 * Prod(q.qy, q.qx)
            && r.m20 + r.m02 == 4.0 * Prod(q.qx, q.qz) == 4.0 * Prod(q.qz, q.qx)
            && r.m12 + r.m21 == 4.0 * Prod(q.qy, q.qz) == 4.0 * Prod(q.qz, q.qy)
  {
    hide Prod;
    ProdCommutes(q.qi, q.qx);
    ProdCommutes(q.qi, q.qy);
    ProdCommutes(q.qi, q.qz);
    ProdCommutes(q.qx, q.qy);
    ProdCommutes(q.qx, q.qz);
    ProdCommutes(q.qy, q.qz);
  }

  /** A root to start from exists: twice the absolute value of the pivot. */
  lemma RootExists(q: Quat) returns (root: real)
    requires Unit(q)
    ensures root >= 0.0 && root * root == Radicand(Hom(q))
  {
    hide Radicand, Hom, Pivot, Norm2;
    var k := Pivot(q);
    PivotIsLarge(q);
    root := if k >= 0.0 then 2.0 * k else -2.0 * k;
    assert root * root == 4.0 * (k * k);
  }

  // ------------------------------------------------------------ orthogonality

  lemma HomConj(q: Quat)
    ensures Hom(Conj(q)) == Transpose(Hom(q)) && Norm2(Conj(q)) == Norm2(q)
  {
    hide Prod;
    NegBoth(q.qx, q.qx);
    NegBoth(q.qy, q.qy);
    NegBoth(q.qz, q.qz);
    NegBoth(q.qi, q.qx);
    NegBoth(q.qi, q.qy);
    NegBoth(q.qi, q.qz);
    NegBoth(q.qx, q.qy);
    NegBoth(q.qx, q.qz);
    NegBoth(q.qy, q.qz);
  }

  /** The matrix of a unit quaternion is a rotation: its transpose is its inverse. */
  lemma RmatIsOrthogonal(q: Quat, sqrt2: real)
    requires Unit(q) && sqrt2 * sqrt2 == 2.0
    ensures var r := RmatOfQuat(q, sqrt2);
            RmatComp(r, Transpose(r)) == Diag(1.0, 1.0, 1.0) == RmatComp(Transpose(r), r)
  {
    hide QuatComp, Hom, RmatOfQuat, RmatOfQuatSlow, RmatComp, Norm2, Conj, Transpose;
    RmatIsHom(q, sqrt2);
    HomConj(q);
    HomComp(q, Conj(q));
    HomComp(Conj(q), q);
    ConjProduct(q);
    HomOne();
  }

  lemma HomOne()
    ensures Hom(Quat(1.0, 0.0, 0.0, 0.0)) == Diag(1.0, 1.0, 1.0)
  {
    ProdUnits(1.0);
  }
}

/** Keeping a rotation matrix orthonormal: float_rmat_reorthogonalize. */
module Reorthogonalization {
  import opened LinearAlgebra

  // What the model asks of sqrtf
  ghost predicate IsSqrt(sqrtf: real -> real) {
    forall x: real :: x >= 0.0 ==> sqrtf(x) >= 0.0 && sqrtf(x) * sqrtf(x) == x
  }

  /** renorm_factor: a polynomial near 1, an inverse root further away, else 0. */
  function RenormFactor(n: real, sqrtf: real -> real): real
    requires IsSqrt(sqrtf)
  {
    if n < 1.5625 && n > 0.64 then 0.5 * (3.0 - n)
    else if n < 100.0 && n > 0.01 then
      assert sqrtf(n) * sqrtf(n) == n;
      1.0 / sqrtf(n)
    else 0.0
  }

  // The three rows after the error has been shared, before they are scaled

  function NewRow(u: Vec3, v: Vec3): Vec3 {
    Plus(u, Scale(-0.5 * Dot(u, v), v))
  }

  function Renormed(u: Vec3, sqrtf: real -> real): Vec3
    requires IsSqrt(sqrtf)
  {
    Scale(RenormFactor(Dot(u, u), sqrtf), u)
  }

  /** The matrix after one step. */
  function Reorthogonalized(r: Mat3, sqrtf: real -> real): Mat3
    requires IsSqrt(sqrtf)
  {
    var u, v := NewRow(Row0(r), Row1(r)), NewRow(Row1(r), Row0(r));
    OfRows(Renormed(u, sqrtf), Renormed(v, sqrtf), Renormed(Cross(u, v), sqrtf))
  }

  // ------------------------------------------------------------ what one step achieves

  /** The new rows have dot product d - (|u|^2 + |v|^2) d/2 + d^3/4. */
  lemma NewDot(u: Vec3, v: Vec3)
    ensures var d := Dot(u, v);
            Dot(NewRow(u, v), NewRow(v, u)) ==
            d - 0.5 * d * Dot(u, u) - 0.5 * d * Dot(v, v) + d * d * d / 4.0
  {
    hide Dot, Scale, Plus, Prod;
    var d := Dot(u, v);
    var e := -0.5 * d;
    DotCommutes(u, v);
    DotPlus(Plus(u, Scale(e, v)), v, Scale(e, u));
    DotPlus(v, u, Scale(e, v));
    DotPlus(Scale(e, u), u, Scale(e, v));
    DotScale(e, v, v);
    DotScale(e, u, u);
    DotScale(e, v, Scale(e, u));
    DotScale(e, v, u);
    Halves(d, e, Dot(u, u), 0.5 * Dot(u, v) * Dot(u, u));
    Halves(d, e, Dot(v, v), 0.5 * Dot(u, v) * Dot(v, v));
    Cube(d, e, Dot(u, v) * Dot(u, v) * Dot(u, v) / 4.0);
  }

  lemma Halves(d: real, e: real, n: real, half: real)
    requires e == -0.5 * d && half == 0.5 * d * n
    ensures Prod(e, n) == -half
  {
  }

  lemma Cube(d: real, e: real, quarter: real)
    requires e == -0.5 * d && quarter == d * d * d / 4.0
    ensures Prod(e, Prod(e, d)) == quarter
  {
  }

  /** The squared length of a new row. */
  lemma NewNorm(u: Vec3, v: Vec3)
    ensures var d := Dot(u, v);
            Dot(NewRow(u, v), NewRow(u, v)) == Dot(u, u) - d * d + d * d * Dot(v, v) / 4.0
  {
    hide Dot, Scale, Plus, Prod;
    var d := Dot(u, v);
    var e := -0.5 * d;
    DotPlus(Plus(u, Scale(e, v)), u, Scale(e, v));
    DotPlus(u, u, Scale(e, v));
    DotPlus(Scale(e, v), u, Scale(e, v));
    DotScale(e, u, v);
    DotScale(e, v, u);
    DotCommutes(u, v);
    DotCommutes(Scale(e, v), u);
    DotScale(e, v, Scale(e, v));
    DotScale(e, v, v);
    Squares(d, e, Dot(v, v));
  }

  lemma Squares(d: real, e: real, m: real)
    requires e == -0.5 * d
    ensures Prod(e, d) == -0.5 * (d * d) && Prod(e, Prod(e, m)) == d * d * m / 4.0
  {
  }

  /** Renormalising maps the squared length n to n'; near 1 the error is squared. */
  lemma RenormNorm(u: Vec3, sqrtf: real -> real)
    requires IsSqrt(sqrtf)
    ensures var n := Dot(u, u);
            var n' := Dot(Renormed(u, sqrtf), Renormed(u, sqrtf));
            if 0.64 < n < 1.5625 then 1.0 - n' == (1.0 - n) * (1.0 - n) * (4.0 - n) / 4.0
            else if 0.01 < n < 100.0 then n' == 1.0
            else n' == 0.0
  {
    hide Dot, Scale, Prod;
    var n := Dot(u, u);
    var f := RenormFactor(n, sqrtf);
    DotScale(f, u, Scale(f, u));
    DotScale(f, u, u);
    if 0.64 < n < 1.5625 {
      Polynomial(n, f);
    } else if 0.01 < n < 100.0 {
      InverseRoot(n, sqrtf(n), f);
    } else {
      NoLength(f, n);
    }
  }

  lemma Polynomial(n: real, f: real)
    requires f == 0.5 * (3.0 - n)
    ensures 1.0 - Prod(f, Prod(f, n)) == (1.0 - n) * (1.0 - n) * (4.0 - n) / 4.0
  {
    assert Prod(f, Prod(f, n)) == 0.5 * (3.0 - n) * (0.5 * (3.0 - n) * n);
  }

  lemma InverseRoot(n: real, root: real, f: real)
    requires root != 0.0 && root * root == n && f == 1.0 / root
    ensures Prod(f, Prod(f, n)) == 1.0
  {
    assert f * root == 1.0;
    assert f * n == (f * root) * root == root;
  }

  lemma NoLength(f: real, n: real)
    requires f == 0.0
    ensures Prod(f, Prod(f, n)) == 0.0
  {
  }

  /**
   One step on unit rows 0 and 1 with dot product d: before scaling their dot product is
   d^3/4 and their squared lengths are 1 - 3 d^2/4; row 2 of the result is orthogonal to
   rows 0 and 1, whatever the scaling.
   */
  lemma OneStep(r: Mat3, sqrtf: real -> real)
    requires IsSqrt(sqrtf) && Dot(Row0(r), Row0(r)) == 1.0 == Dot(Row1(r), Row1(r))
    ensures var d := Dot(Row0(r), Row1(r));
            var u, v := NewRow(Row0(r), Row1(r)), NewRow(Row1(r), Row0(r));
            && Dot(u, v) == d * d * d / 4.0
            && Dot(u, u) == 1.0 - 0.75 * (d * d) == Dot(v, v)
    ensures var r' := Reorthogonalized(r, sqrtf);
            Dot(Row2(r'), Row0(r')) == 0.0 == Dot(Row2(r'), Row1(r'))
  {
    hide Dot, Scale, NewRow, RenormFactor, Cross;
    var a, b := Row0(r), Row1(r);
    var u, v := NewRow(a, b), NewRow(b, a);
    NewDot(a, b);
    NewNorm(a, b);
    NewNorm(b, a);
    DotCommutes(a, b);
    ScaledOrthogonal(u, v, sqrtf);
  }

  lemma RenormNearOne(u: Vec3, sqrtf: real -> real, e: real)
    requires IsSqrt(sqrtf) && Dot(u, u) == 1.0 - e && 0.0 <= e < 0.36
    ensures RenormFactor(Dot(u, u), sqrtf) == 1.0 + e / 2.0
    ensures 1.0 - Dot(Renormed(u, sqrtf), Renormed(u, sqrtf)) == e * e * (3.0 + e) / 4.0
  {
    hide Dot, Scale, Prod, Renormed;
    RenormNorm(u, sqrtf);
    InTermsOfError(Dot(u, u), e);
  }

  lemma InTermsOfError(n: real, e: real)
    requires n == 1.0 - e
    ensures (1.0 - n) * (1.0 - n) * (4.0 - n) / 4.0 == e * e * (3.0 + e) / 4.0
  {
  }

  lemma ScaledDot(u: Vec3, v: Vec3, f: real, x: real)
    requires Dot(u, v) == x
    ensures Dot(Scale(f, u), Scale(f, v)) == Prod(f, Prod(f, x))
  {
    hide Dot, Scale, Prod;
    DotScale(f, u, Scale(f, v));
    DotScale(f, u, v);
  }

  // Rows of squared length n below the polynomial's reach become units
  lemma RenormFar(u: Vec3, v: Vec3, sqrtf: real -> real, n: real, x: real, y: real)
    requires IsSqrt(sqrtf) && Dot(u, u) == n == Dot(v, v) && 0.01 < n <= 0.64
    requires Dot(u, v) == x == Prod(y, n)
    ensures Dot(Renormed(u, sqrtf), Renormed(u, sqrtf)) == 1.0 == Dot(Renormed(v, sqrtf), Renormed(v, sqrtf))
    ensures Dot(Renormed(u, sqrtf), Renormed(v, sqrtf)) == y
  {
    hide Dot, Scale, Prod;
    RenormNorm(u, sqrtf);
    RenormNorm(v, sqrtf);
    var f := RenormFactor(n, sqrtf);
    ScaledDot(u, v, f, x);
    TwoRoots(n, sqrtf(n), f, x, y);
  }

  lemma TwoRoots(n: real, root: real, f: real, x: real, y: real)
    requires root != 0.0 && root * root == n && f == 1.0 / root && x == Prod(y, n)
    ensures Prod(f, Prod(f, x)) == y
  {
    InverseRoot(n, root, f);
    assert f * (f * (y * n)) == (f * (f * n)) * y;
  }

  // Near right angles: d^2 < 0.48
  lemma StepNear(r: Mat3, sqrtf: real -> real, d: real, e: real)
    requires IsSqrt(sqrtf) && Dot(Row0(r), Row0(r)) == 1.0 == Dot(Row1(r), Row1(r))
    requires d == Dot(Row0(r), Row1(r)) && e == 0.75 * (d * d) < 0.36
    ensures var r' := Reorthogonalized(r, sqrtf);
            && Dot(Row0(r'), Row1(r')) == Prod(1.0 + e / 2.0, Prod(1.0 + e / 2.0, d * d * d / 4.0))
            && 1.0 - Dot(Row0(r'), Row0(r')) == e * e * (3.0 + e) / 4.0
            && 1.0 - Dot(Row1(r'), Row1(r')) == e * e * (3.0 + e) / 4.0
  {
    NonNegative(d);
    OneStep(r, sqrtf);
    var u, v := NewRow(Row0(r), Row1(r)), NewRow(Row1(r), Row0(r));
    hide Dot, Scale, NewRow, Cross, Prod, RenormFactor;
    RenormNearOne(u, sqrtf, e);
    RenormNearOne(v, sqrtf, e);
    ScaledDot(u, v, 1.0 + e / 2.0, d * d * d / 4.0);
  }

  // Far from right angles: 0.48 <= d^2 <= 1
  lemma StepFar(r: Mat3, sqrtf: real -> real, d: real, n: real, y: real)
    requires IsSqrt(sqrtf) && Dot(Row0(r), Row0(r)) == 1.0 == Dot(Row1(r), Row1(r))
    requires d == Dot(Row0(r), Row1(r)) && 0.25 <= n == 1.0 - 0.75 * (d * d) <= 0.64
    requires Prod(y, n) == d * d * d / 4.0
    ensures var r' := Reorthogonalized(r, sqrtf);
            && Dot(Row0(r'), Row1(r')) == y
            && Dot(Row0(r'), Row0(r')) == 1.0 == Dot(Row1(r'), Row1(r'))
  {
    hide Dot, Scale, NewRow, Cross, Prod, RenormFactor, Renormed;
    OneStep(r, sqrtf);
    var u, v := NewRow(Row0(r), Row1(r)), NewRow(Row1(r), Row0(r));
    RenormFar(u, v, sqrtf, n, Dot(u, v), y);
  }

  /** Unit rows have a dot product of at most 1. */
  lemma UnitDot(u: Vec3, v: Vec3, d: real)
    requires Dot(u, u) == 1.0 == Dot(v, v) && d == Dot(u, v)
    ensures 0.0 <= d * d <= 1.0
  {
    Lagrange(u, v);
    DotSelf(Cross(u, v));
    NonNegative(d);
    hide Dot, Cross;
  }

  // How the step scales the dot product, as a function of x = d^2
  function Shrink(x: real): real
    requires x <= 1.0
  {
    if x < 0.48 then (1.0 + 0.375 * x) * (1.0 + 0.375 * x) * x / 4.0 else x / (4.0 - 3.0 * x)
  }

  lemma ShrinkRange(x: real)
    requires 0.0 <= x <= 1.0
    ensures 0.0 <= Shrink(x) <= 1.0 && (Shrink(x) == 1.0 <==> x == 1.0)
  {
    if x < 0.48 {
      var f := 1.0 + 0.375 * x;
      assert 1.0 <= f < 1.18;
      assert f * f <= 1.18 * 1.18 by { assert f * f <= 1.18 * f; }
      assert 0.0 <= f * f * x <= 1.18 * 1.18 * x;
    } else {
      FractionRange(x, 4.0 - 3.0 * x);
    }
  }

  lemma FractionRange(x: real, y: real)
    requires 0.0 <= x <= y && y > 0.0
    ensures 0.0 <= x / y <= 1.0 && (x / y == 1.0 <==> x == y)
  {
    var q := x / y;
    assert q * y == x && (1.0 - q) * y == y - x;
    SameSign(q, y);
    SameSign(1.0 - q, y);
  }

  lemma ScaledSquare(g: real, d: real, y: real)
    requires 0.0 <= g <= 1.0 && y == Prod(g, d)
    ensures y * y <= d * d && (y * y < d * d <==> g < 1.0 && d != 0.0)
  {
    NonNegative(d);
    assert y * y == (g * g) * (d * d);
    assert g * g <= g;
    var c, s := 1.0 - g * g, d * d;
    var p := c * s;
    assert s - y * y == p;
    NonNegativeProduct(c, s);
    if g < 1.0 && d != 0.0 {
      SquarePositive(d, s);
      PositiveProduct(c, s, p);
    }
  }

  lemma NearDot(d: real, x: real, e: real)
    requires x == d * d && e == 0.75 * x && x < 0.48
    ensures Prod(1.0 + e / 2.0, Prod(1.0 + e / 2.0, d * d * d / 4.0)) == Prod(Shrink(x), d)
  {
    var f := 1.0 + 0.375 * x;
    assert f * (f * (x * d / 4.0)) == f * f * x / 4.0 * d;
  }

  lemma FarDot(d: real, x: real, n: real)
    requires x == d * d && n == 1.0 - 0.75 * x && 0.48 <= x <= 1.0
    ensures Prod(Prod(Shrink(x), d), n) == d * d * d / 4.0
  {
    var m := 4.0 - 3.0 * x;
    var q := x / m;
    assert q * m == x && m == 4.0 * n;
    assert (q * d) * n == (q * m) * d / 4.0;
  }

  // What a squared length misses of 1 after the step
  function Off(x: real): real {
    if x < 0.48 then 0.5625 * x * x * (3.0 + 0.75 * x) / 4.0 else 0.0
  }

  lemma ErrorOf(x: real, e: real)
    requires e == 0.75 * x && x < 0.48
    ensures e * e * (3.0 + e) / 4.0 == Off(x)
  {
  }

  lemma StepOutcome(r: Mat3, sqrtf: real -> real, d: real, x: real)
    requires IsSqrt(sqrtf) && Dot(Row0(r), Row0(r)) == 1.0 == Dot(Row1(r), Row1(r))
    requires d == Dot(Row0(r), Row1(r)) && 0.0 <= x == d * d <= 1.0
    ensures var r' := Reorthogonalized(r, sqrtf);
            && Dot(Row0(r'), Row1(r')) == Prod(Shrink(x), d)
            && 1.0 - Dot(Row0(r'), Row0(r')) == Off(x) == 1.0 - Dot(Row1(r'), Row1(r'))
  {
    hide Dot, Shrink, Reorthogonalized, Prod;
    var e := 0.75 * x;
    if x < 0.48 {
      hide Off;
      StepNear(r, sqrtf, d, e);
      NearDot(d, x, e);
      ErrorOf(x, e);
    } else {
      FarDot(d, x, 1.0 - e);
      StepFar(r, sqrtf, d, 1.0 - e, Prod(Shrink(x), d));
    }
  }

  /**
   The whole step on unit rows 0 and 1 with dot product d: the new dot product is d times
   Shrink(d^2), so it is smaller in magnitude unless the rows were orthogonal or parallel
   already; the rows are units exactly from d^2 = 0.48 on, and off by the fourth order in d
   below that.
   */
  lemma StepShrinksErrors(r: Mat3, sqrtf: real -> real, d: real, x: real)
    requires IsSqrt(sqrtf) && Dot(Row0(r), Row0(r)) == 1.0 == Dot(Row1(r), Row1(r))
    requires d == Dot(Row0(r), Row1(r)) && x == d * d
    ensures 0.0 <= x <= 1.0
    ensures var r' := Reorthogonalized(r, sqrtf);
            var d' := Dot(Row0(r'), Row1(r'));
            && d' == Prod(Shrink(x), d)
            && d' * d' <= d * d && (d' * d' < d * d <==> 0.0 < x < 1.0)
            && 1.0 - Dot(Row0(r'), Row0(r')) == Off(x) == 1.0 - Dot(Row1(r'), Row1(r'))
  {
    hide Dot, Shrink, Reorthogonalized, Prod, Off;
    UnitDot(Row0(r), Row1(r), d);
    StepOutcome(r, sqrtf, d, x);
    ShrinkRange(x);
    var r' := Reorthogonalized(r, sqrtf);
    ScaledSquare(Shrink(x), d, Dot(Row0(r'), Row1(r')));
  }

  /** Row 2 after the same step: its squared length w before scaling, and what scaling makes of it. */
  lemma StepThirdRow(r: Mat3, sqrtf: real -> real, d: real, x: real, w: real)
    requires IsSqrt(sqrtf) && Dot(Row0(r), Row0(r)) == 1.0 == Dot(Row1(r), Row1(r))
    requires d == Dot(Row0(r), Row1(r)) && x == d * d
    requires w == (1.0 - x) * (1.0 - x / 4.0) * (1.0 - x / 4.0)
    ensures var c := Cross(NewRow(Row0(r), Row1(r)), NewRow(Row1(r), Row0(r)));
            Dot(c, c) == w
    ensures 0.0 <= w <= 1.0
    ensures var r' := Reorthogonalized(r, sqrtf);
            var n := Dot(Row2(r'), Row2(r'));
            if 0.64 < w then 1.0 - n == (1.0 - w) * (1.0 - w) * (4.0 - w) / 4.0
            else if 0.01 < w then n == 1.0
            else n == 0.0
  {
    hide Dot, Scale, NewRow, Cross, Renormed, Prod, RenormFactor;
    UnitDot(Row0(r), Row1(r), d);
    OneStep(r, sqrtf);
    var u, v := NewRow(Row0(r), Row1(r)), NewRow(Row1(r), Row0(r));
    Lagrange(u, v);
    ThirdRow(d, x, Dot(u, u), Dot(u, v), w);
    RenormNorm(Cross(u, v), sqrtf);
  }

  lemma ThirdRow(d: real, x: real, n: real, y: real, w: real)
    requires x == d * d && 0.0 <= x <= 1.0 && n == 1.0 - 0.75 * (d * d) && y == d * d * d / 4.0
    requires w == (1.0 - x) * (1.0 - x / 4.0) * (1.0 - x / 4.0)
    ensures Prod(n, n) - Prod(y, y) == w
    ensures 0.0 <= w <= 1.0
  {
    assert y == x * d / 4.0;
    assert y * y == x * x * x / 16.0;
    var a, b := 1.0 - x, 1.0 - x / 4.0;
    assert 0.0 <= b * b <= b * 1.0 by { assert b * (1.0 - b) >= 0.0; }
    NonNegativeProduct(a, b * b);
    assert w == a * (b * b) && b * b - w == x * (b * b);
    NonNegativeProduct(x, b * b);
  }

  lemma ScaledOrthogonal(u: Vec3, v: Vec3, sqrtf: real -> real)
    requires IsSqrt(sqrtf)
    ensures var w := Renormed(Cross(u, v), sqrtf);
            Dot(w, Renormed(u, sqrtf)) == 0.0 == Dot(w, Renormed(v, sqrtf))
  {
    hide Dot, Scale, RenormFactor, Prod, Cross;
    var c := Cross(u, v);
    var (f, g, h) := (RenormFactor(Dot(u, u), sqrtf), RenormFactor(Dot(v, v), sqrtf),
                      RenormFactor(Dot(c, c), sqrtf));
    CrossOrthogonal(u, v);
    DotScale(h, c, Scale(f, u));
    DotScale(f, c, u);
    DotScale(h, c, Scale(g, v));
    DotScale(g, c, v);
    ProdUnits(f);
    ProdUnits(g);
    ProdUnits(h);
  }

  /** Scaling never turns a row around: the factor is positive, or 0 far from unit length. */
  lemma RenormDirection(n: real, sqrtf: real -> real)
    requires IsSqrt(sqrtf)
    ensures RenormFactor(n, sqrtf) >= 0.0
    ensures RenormFactor(n, sqrtf) > 0.0 <==> 0.01 < n < 100.0
  {
    if 0.01 < n < 100.0 {
      assert sqrtf(n) * sqrtf(n) == n && sqrtf(n) >= 0.0;
      InversePositive(sqrtf(n), 1.0 / sqrtf(n));
    }
  }

  lemma InversePositive(a: real, b: real)
    requires a > 0.0 && b == 1.0 / a
    ensures b > 0.0
  {
    assert a * b == 1.0;
    SameSign(b, a);
  }

  lemma ScaleUnits(v: Vec3)
    ensures Scale(1.0, v) == v && Scale(0.0, v) == ZERO3 && Plus(v, ZERO3) == v
  {
  }

  // A unit row orthogonal to the other stays
  lemma RowStays(u: Vec3, v: Vec3, sqrtf: real -> real)
    requires IsSqrt(sqrtf) && Dot(u, v) == 0.0
    ensures NewRow(u, v) == u
    ensures Dot(u, u) == 1.0 ==> Renormed(u, sqrtf) == u
  {
    hide Dot, Scale, Plus;
    ScaleUnits(v);
    ScaleUnits(u);
  }

  /**
   The step leaves alone exactly the rotations: of the matrices whose rows 0 and 1 are units
   and not parallel, those with orthogonal rows 0 and 1 and their cross product as row 2.
   */
  lemma RotationsStayIff(r: Mat3, sqrtf: real -> real, d: real)
    requires IsSqrt(sqrtf) && Dot(Row0(r), Row0(r)) == 1.0 == Dot(Row1(r), Row1(r))
    requires d == Dot(Row0(r), Row1(r)) && d * d < 1.0
    ensures Reorthogonalized(r, sqrtf) == r <==> d == 0.0 && Row2(r) == Cross(Row0(r), Row1(r))
  {
    hide Dot, Cross, NewRow, Renormed;
    var u, v, w := Row0(r), Row1(r), Cross(Row0(r), Row1(r));
    if d == 0.0 {
      DotCommutes(u, v);
      RowStays(u, v, sqrtf);
      RowStays(v, u, sqrtf);
      Lagrange(u, v);
      assert Dot(w, w) == 1.0;
      CrossOrthogonal(u, v);
      RowStays(w, u, sqrtf);
    } else {
      SquarePositive(d, d * d);
      StepShrinksErrors(r, sqrtf, d, d * d);
    }
  }

  // ------------------------------------------------------------ the code

  // Rows of a matrix stored row by row
  ghost function Stored(m: array<real>): Mat3
    requires m.Length == 9
    reads m
  {
    Mat3(m[0], m[1], m[2], m[3], m[4], m[5], m[6], m[7], m[8])
  }

  function RowAt(s: seq<real>, k: nat): Vec3
    requires k + 3 <= |s|
  {
    Vec3(s[k], s[k + 1], s[k + 2])
  }

  /** VECT3_SUM_SCALED(*a, *a, b, s) on the row stored at k. */
  method AddScaled(m: array<real>, k: nat, b: Vec3, s: real)
    requires m.Length == 9 && (k == 0 || k == 3 || k == 6)
    modifies m
    ensures RowAt(m[..], k) == Plus(RowAt(old(m[..]), k), Scale(s, b))
    ensures forall i :: 0 <= i < 9 && !(k <= i < k + 3) ==> m[i] == old(m[i])
  {
    m[k] := m[k] + Prod(s, b.x);
    m[k + 1] := m[k + 1] + Prod(s, b.y);
    m[k + 2] := m[k + 2] + Prod(s, b.z);
  }

  method StoreRow(m: array<real>, k: nat, b: Vec3)
    requires m.Length == 9 && (k == 0 || k == 3 || k == 6)
    modifies m
    ensures RowAt(m[..], k) == b
    ensures forall i :: 0 <= i < 9 && !(k <= i < k + 3) ==> m[i] == old(m[i])
  {
    m[k], m[k + 1], m[k + 2] := b.x, b.y, b.z;
  }

  /** FLOAT_VECT3_SMUL(*a, *a, renorm_factor(FLOAT_VECT3_NORM2(*a))) on the row stored at k. */
  method Renorm(m: array<real>, k: nat, sqrtf: real -> real)
    requires m.Length == 9 && (k == 0 || k == 3 || k == 6) && IsSqrt(sqrtf)
    modifies m
    ensures RowAt(m[..], k) == Renormed(RowAt(old(m[..]), k), sqrtf)
    ensures forall i :: 0 <= i < 9 && !(k <= i < k + 3) ==> m[i] == old(m[i])
  {
    hide RenormFactor, Dot, Prod;
    var u := Vec3(m[k], m[k + 1], m[k + 2]);
    var s := RenormFactor(Dot(u, u), sqrtf);
    m[k] := Prod(s, m[k]);
    m[k + 1] := Prod(s, m[k + 1]);
    m[k + 2] := Prod(s, m[k + 2]);
  }

  /** float_rmat_reorthogonalize, in place on the nine elements. */
  method Reorthogonalize(m: array<real>, sqrtf: real -> real) returns (err: real)
    requires m.Length == 9 && IsSqrt(sqrtf)
    modifies m
    ensures Stored(m) == Reorthogonalized(old(Stored(m)), sqrtf)
    ensures err == -0.5 * Dot(Row0(old(Stored(m))), Row1(old(Stored(m))))
  {
    hide Dot, Scale, Plus, RenormFactor, Cross, Prod;
    ghost var r := Stored(m);
    var r0, r1 := Vec3(m[0], m[1], m[2]), Vec3(m[3], m[4], m[5]);
    DotCommutes(r0, r1);
    err := -0.5 * Dot(r0, r1);
    var r0t := Plus(r0, Scale(err, r1));
    AddScaled(m, 3, r0, err);
    StoreRow(m, 0, r0t);
    var r1t := Vec3(m[3], m[4], m[5]);
    assert RowAt(m[..], 3) == r1t;
    assert r0t == NewRow(r0, r1) && r1t == NewRow(r1, r0);
    StoreRow(m, 6, Cross(r0t, r1t));
    assert RowAt(m[..], 0) == r0t && RowAt(m[..], 3) == r1t;
    Renorm(m, 0, sqrtf);
    assert RowAt(m[..], 3) == r1t && RowAt(m[..], 6) == Cross(r0t, r1t);
    Renorm(m, 3, sqrtf);
    assert RowAt(m[..], 0) == Renormed(r0t, sqrtf) && RowAt(m[..], 6) == Cross(r0t, r1t);
    Renorm(m, 6, sqrtf);
    assert RowAt(m[..], 0) == Renormed(r0t, sqrtf) && RowAt(m[..], 3) == Renormed(r1t, sqrtf);
    assert RowAt(m[..], 6) == Renormed(Cross(r0t, r1t), sqrtf);
  }
}
