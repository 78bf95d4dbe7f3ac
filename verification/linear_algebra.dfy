/** Real 3-vectors and 3x3 matrices. */
module LinearAlgebra {

  datatype Vec3 = Vec3(x: real, y: real, z: real)

  datatype Mat3 = Mat3(m00: real, m01: real, m02: real,
                       m10: real, m11: real, m12: real,
                       m20: real, m21: real, m22: real)

  const ZERO3 := Vec3(0.0, 0.0, 0.0)
  const E0 := Vec3(1.0, 0.0, 0.0)
  const E1 := Vec3(0.0, 1.0, 0.0)

  function Diag(a: real, b: real, c: real): Mat3 {
    Mat3(a, 0.0, 0.0, 0.0, b, 0.0, 0.0, 0.0, c)
  }

  function Dot(u: Vec3, v: Vec3): real {
    Prod(u.x, v.x) + Prod(u.y, v.y) + Prod(u.z, v.z)
  }

  // Multiplication of reals as a function, so that equal factors give equal products
  function Prod(a: real, b: real): real {
    a * b
  }

  function Plus(u: Vec3, v: Vec3): Vec3 {
    Vec3(u.x + v.x, u.y + v.y, u.z + v.z)
  }

  function Minus(u: Vec3, v: Vec3): Vec3 {
    Vec3(u.x - v.x, u.y - v.y, u.z - v.z)
  }

  function Scale(s: real, v: Vec3): Vec3 {
    Vec3(Prod(s, v.x), Prod(s, v.y), Prod(s, v.z))
  }

  function Row0(a: Mat3): Vec3 { Vec3(a.m00, a.m01, a.m02) }

  function Row1(a: Mat3): Vec3 { Vec3(a.m10, a.m11, a.m12) }

  function Row2(a: Mat3): Vec3 { Vec3(a.m20, a.m21, a.m22) }

  function OfRows(u: Vec3, v: Vec3, w: Vec3): Mat3 {
    Mat3(u.x, u.y, u.z, v.x, v.y, v.z, w.x, w.y, w.z)
  }

  function Transpose(a: Mat3): Mat3 {
    Mat3(a.m00, a.m10, a.m20, a.m01, a.m11, a.m21, a.m02, a.m12, a.m22)
  }

  function MatPlus(a: Mat3, b: Mat3): Mat3 {
    OfRows(Plus(Row0(a), Row0(b)), Plus(Row1(a), Row1(b)), Plus(Row2(a), Row2(b)))
  }

  function MulVec(a: Mat3, v: Vec3): Vec3 {
    Vec3(Dot(Row0(a), v), Dot(Row1(a), v), Dot(Row2(a), v))
  }

  /** Matrix product: row i of the result is row i of a times b. */
  function Mul(a: Mat3, b: Mat3): Mat3 {
    var bt := Transpose(b);
    OfRows(MulVec(bt, Row0(a)), MulVec(bt, Row1(a)), MulVec(bt, Row2(a)))
  }

  /** u v', the outer product of two vectors. */
  function Outer(u: Vec3, v: Vec3): Mat3 {
    OfRows(Scale(u.x, v), Scale(u.y, v), Scale(u.z, v))
  }

  /** The value v' A v. */
  function Quad(a: Mat3, v: Vec3): real {
    Dot(v, MulVec(a, v))
  }

  predicate Symmetric(a: Mat3) {
    a == Transpose(a)
  }

  ghost predicate PosDef(a: Mat3) {
    Symmetric(a) && forall v: Vec3 :: v != ZERO3 ==> Quad(a, v) > 0.0
  }

  // ------------------------------------------------------------ signs

  lemma PositiveProduct(a: real, b: real, p: real)
    requires p == a * b && a > 0.0 && b > 0.0
    ensures p > 0.0
  {
  }

  lemma NonNegativeProduct(a: real, b: real)
    requires a >= 0.0 && b >= 0.0
    ensures a * b >= 0.0
  {
  }

  lemma SameSign(a: real, y: real)
    requires y > 0.0
    ensures (a * y >= 0.0 <==> a >= 0.0) && (a * y == 0.0 <==> a == 0.0)
  {
  }

  lemma OneIsZero(a: real, b: real)
    requires a * b == 0.0
    ensures a == 0.0 || b == 0.0
  {
  }

  lemma SquarePositive(x: real, x2: real)
    requires x2 == x * x
    ensures x2 >= 0.0 && (x != 0.0 ==> x2 > 0.0)
  {
    if x > 0.0 {
      PositiveProduct(x, x, x2);
    } else if x < 0.0 {
      PositiveProduct(-x, -x, x2);
    }
  }

  // ------------------------------------------------------------ bilinearity

  lemma ProdUnits(a: real)
    ensures Prod(1.0, a) == a == Prod(a, 1.0) && Prod(0.0, a) == 0.0 == Prod(a, 0.0)
    ensures Prod(0.0, 0.0) == 0.0
  {
  }

  lemma ProdCommutes(a: real, b: real)
    ensures Prod(a, b) == Prod(b, a)
  {
  }

  lemma ProdPlus(a: real, b: real, c: real)
    ensures Prod(a, b + c) == Prod(a, b) + Prod(a, c)
    ensures Prod(b + c, a) == Prod(b, a) + Prod(c, a)
  {
  }

  lemma ProdAssoc(a: real, b: real, c: real)
    ensures Prod(a, Prod(b, c)) == Prod(Prod(a, b), c) == Prod(b, Prod(a, c))
  {
    var bc, ab, ac := b * c, a * b, a * c;
    assert a * bc == ab * c == b * ac;
  }

  // s (a b + c d + e f), one product at a time
  lemma ProdSum(s: real, a: real, b: real, c: real)
    ensures Prod(s, a + b + c) == Prod(s, a) + Prod(s, b) + Prod(s, c)
    ensures Prod(a + b + c, s) == Prod(s, a) + Prod(s, b) + Prod(s, c)
  {
  }

  lemma DotCommutes(u: Vec3, v: Vec3)
    ensures Dot(u, v) == Dot(v, u)
  {
    ProdCommutes(u.x, v.x);
    ProdCommutes(u.y, v.y);
    ProdCommutes(u.z, v.z);
  }

  lemma DotPlus(u: Vec3, v: Vec3, w: Vec3)
    ensures Dot(u, Plus(v, w)) == Dot(u, v) + Dot(u, w)
    ensures Dot(Plus(v, w), u) == Dot(v, u) + Dot(w, u)
  {
    hide Prod;
    ProdPlus(u.x, v.x, w.x);
    ProdPlus(u.y, v.y, w.y);
    ProdPlus(u.z, v.z, w.z);
  }

  lemma DotMinus(u: Vec3, v: Vec3, w: Vec3)
    ensures Dot(u, Minus(v, w)) == Dot(u, v) - Dot(u, w)
  {
    DotPlus(u, Minus(v, w), w);
    assert Plus(Minus(v, w), w) == v;
  }

  lemma DotScale(s: real, u: Vec3, v: Vec3)
    ensures Dot(Scale(s, u), v) == Prod(s, Dot(u, v)) == Dot(u, Scale(s, v))
  {
    hide Prod;
    ProdAssoc(s, u.x, v.x);
    ProdAssoc(s, u.y, v.y);
    ProdAssoc(s, u.z, v.z);
    ProdSum(s, Prod(u.x, v.x), Prod(u.y, v.y), Prod(u.z, v.z));
  }

  lemma MulVecPlus(a: Mat3, u: Vec3, v: Vec3)
    ensures MulVec(a, Plus(u, v)) == Plus(MulVec(a, u), MulVec(a, v))
  {
    hide Dot;
    DotPlus(Row0(a), u, v);
    DotPlus(Row1(a), u, v);
    DotPlus(Row2(a), u, v);
  }

  lemma MatPlusVec(a: Mat3, b: Mat3, v: Vec3)
    ensures MulVec(MatPlus(a, b), v) == Plus(MulVec(a, v), MulVec(b, v))
  {
    hide Dot;
    DotPlus(v, Row0(a), Row0(b));
    DotPlus(v, Row1(a), Row1(b));
    DotPlus(v, Row2(a), Row2(b));
  }

  lemma MulVecScale(a: Mat3, s: real, v: Vec3)
    ensures MulVec(a, Scale(s, v)) == Scale(s, MulVec(a, v))
  {
    hide Dot, Prod;
    DotScale(s, Row0(a), v);
    DotScale(s, Row1(a), v);
    DotScale(s, Row2(a), v);
  }

  /** A matrix transposed applied to a vector is the combination of the rows. */
  lemma TransposeVec(a: Mat3, u: Vec3)
    ensures MulVec(Transpose(a), u) ==
            Plus(Plus(Scale(u.x, Row0(a)), Scale(u.y, Row1(a))), Scale(u.z, Row2(a)))
  {
    hide Prod;
    DotCommutes(Row0(Transpose(a)), u);
    DotCommutes(Row1(Transpose(a)), u);
    DotCommutes(Row2(Transpose(a)), u);
  }

  /** Transposition moves a matrix to the other side of a dot product. */
  lemma Adjoint(a: Mat3, u: Vec3, v: Vec3)
    ensures Dot(u, MulVec(a, v)) == Dot(MulVec(Transpose(a), u), v)
  {
    hide Prod, Scale, Plus;
    var r0, r1, r2 := Scale(u.x, Row0(a)), Scale(u.y, Row1(a)), Scale(u.z, Row2(a));
    TransposeVec(a, u);
    DotPlus(v, Plus(r0, r1), r2);
    DotPlus(v, r0, r1);
    DotScale(u.x, Row0(a), v);
    DotScale(u.y, Row1(a), v);
    DotScale(u.z, Row2(a), v);
    assert Dot(u, MulVec(a, v)) == Dot(r0, v) + Dot(r1, v) + Dot(r2, v);
  }

  /** A product applied to a vector is the two factors applied in turn. */
  lemma MulAssocVec(a: Mat3, b: Mat3, v: Vec3)
    ensures MulVec(Mul(a, b), v) == MulVec(a, MulVec(b, v))
  {
    Adjoint(b, Row0(a), v);
    Adjoint(b, Row1(a), v);
    Adjoint(b, Row2(a), v);
  }

  // Matrices are determined by what they do to vectors
  lemma MatExt(a: Mat3, b: Mat3)
    requires forall v :: MulVec(a, v) == MulVec(b, v)
    ensures a == b
  {
    Column0(a);
    Column0(b);
    Column1(a);
    Column1(b);
    Column2(a);
    Column2(b);
  }

  lemma Column0(a: Mat3)
    ensures MulVec(a, Vec3(1.0, 0.0, 0.0)) == Vec3(a.m00, a.m10, a.m20)
  {
  }

  lemma Column1(a: Mat3)
    ensures MulVec(a, Vec3(0.0, 1.0, 0.0)) == Vec3(a.m01, a.m11, a.m21)
  {
  }

  lemma Column2(a: Mat3)
    ensures MulVec(a, Vec3(0.0, 0.0, 1.0)) == Vec3(a.m02, a.m12, a.m22)
  {
  }

  lemma QuadPlus(a: Mat3, b: Mat3, v: Vec3)
    ensures Quad(MatPlus(a, b), v) == Quad(a, v) + Quad(b, v)
  {
    MatPlusVec(a, b, v);
    DotPlus(v, MulVec(a, v), MulVec(b, v));
  }

  /** v' (F A F') v = (F'v)' A (F'v) */
  lemma QuadCongruence(f: Mat3, a: Mat3, v: Vec3)
    ensures Quad(Mul(Mul(f, a), Transpose(f)), v) == Quad(a, MulVec(Transpose(f), v))
  {
    var w := MulVec(Transpose(f), v);
    MulAssocVec(Mul(f, a), Transpose(f), v);
    MulAssocVec(f, a, w);
    Adjoint(f, v, MulVec(a, w));
  }

  // ------------------------------------------------------------ the cross product

  function Cross(u: Vec3, v: Vec3): Vec3 {
    Vec3(Prod(u.y, v.z) - Prod(u.z, v.y),
         Prod(u.z, v.x) - Prod(u.x, v.z),
         Prod(u.x, v.y) - Prod(u.y, v.x))
  }

  lemma NonNegative(d: real)
    ensures d * d >= 0.0
  {
  }

  lemma DotSelf(u: Vec3)
    ensures Dot(u, u) >= 0.0
  {
    NonNegative(u.x);
    NonNegative(u.y);
    NonNegative(u.z);
  }

  /** The cross product is exactly orthogonal to both factors. */
  lemma CrossOrthogonal(u: Vec3, v: Vec3)
    ensures Dot(Cross(u, v), u) == 0.0 && Dot(Cross(u, v), v) == 0.0
  {
    hide Prod;
    Triple(u.y, v.z, u.z, v.y, u.x);
    Triple(u.z, v.x, u.x, v.z, u.y);
    Triple(u.x, v.y, u.y, v.x, u.z);
    Triple(u.y, v.z, u.z, v.y, v.x);
    Triple(u.z, v.x, u.x, v.z, v.y);
    Triple(u.x, v.y, u.y, v.x, v.z);
    Shuffle(u.y, v.z, u.x);
    Shuffle(u.z, v.y, u.x);
    Shuffle(u.z, v.x, u.y);
    Shuffle(u.x, v.z, u.y);
    Shuffle(u.x, v.y, u.z);
    Shuffle(u.y, v.x, u.z);
    Shuffle2(u.y, v.z, v.x);
    Shuffle2(u.z, v.y, v.x);
    Shuffle2(u.z, v.x, v.y);
    Shuffle2(u.x, v.z, v.y);
    Shuffle2(u.x, v.y, v.z);
    Shuffle2(u.y, v.x, v.z);
  }

  lemma Triple(a: real, b: real, c: real, d: real, s: real)
    ensures Prod(Prod(a, b) - Prod(c, d), s) == Prod(Prod(a, b), s) - Prod(Prod(c, d), s)
  {
  }

  // a b c with a, c from the same vector
  lemma Shuffle(a: real, b: real, c: real)
    ensures Prod(Prod(a, b), c) == Prod(Prod(c, b), a)
  {
    assert (a * b) * c == (c * b) * a;
  }

  // a b c with b, c from the same vector
  lemma Shuffle2(a: real, b: real, c: real)
    ensures Prod(Prod(a, b), c) == Prod(Prod(a, c), b)
  {
    assert (a * b) * c == (a * c) * b;
  }

  lemma LagrangeTerms(a: real, b: real, c: real, x: real, y: real, z: real)
    ensures (b * z - c * y) * (b * z - c * y) + (c * x - a * z) * (c * x - a * z)
              + (a * y - b * x) * (a * y - b * x)
         == (a * a + b * b + c * c) * (x * x + y * y + z * z)
              - (a * x + b * y + c * z) * (a * x + b * y + c * z)
  {
  }

  /** The squared length of the cross product. */
  lemma Lagrange(u: Vec3, v: Vec3)
    ensures Dot(Cross(u, v), Cross(u, v)) == Prod(Dot(u, u), Dot(v, v)) - Prod(Dot(u, v), Dot(u, v))
  {
    LagrangeTerms(u.x, u.y, u.z, v.x, v.y, v.z);
  }
}
