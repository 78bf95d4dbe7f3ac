/** From rotation matrix to quaternion and back. */
module RmatRoundTrip {
  import opened LinearAlgebra
  import opened RotationAlgebra

  function Det(r: Mat3): real {
    Dot(Row0(r), Cross(Row1(r), Row2(r)))
  }

  /** An orthogonal matrix of determinant 1. */
  predicate Rotation(r: Mat3) {
    Mul(r, Transpose(r)) == Diag(1.0, 1.0, 1.0) && Det(r) == 1.0
  }

  // ------------------------------------------------------------ what makes a rotation

  // Rows and columns are orthonormal and every element is its own cofactor
  predicate SelfCofactor(r: Mat3) {
    && Row0(r) == Cross(Row1(r), Row2(r))
    && Row1(r) == Cross(Row2(r), Row0(r))
    && Row2(r) == Cross(Row0(r), Row1(r))
  }

  predicate OrthonormalRows(r: Mat3) {
    && Dot(Row0(r), Row0(r)) == 1.0 == Dot(Row1(r), Row1(r)) == Dot(Row2(r), Row2(r))
    && Dot(Row0(r), Row1(r)) == 0.0 == Dot(Row1(r), Row2(r)) == Dot(Row2(r), Row0(r))
  }

  predicate Proper(r: Mat3) {
    OrthonormalRows(r) && OrthonormalRows(Transpose(r)) && SelfCofactor(r)
  }

  // Unit a is the cross product of orthonormal b and c when it has product 1 with it
  lemma IsCross(a: Vec3, b: Vec3, c: Vec3)
    requires Dot(a, a) == 1.0 == Dot(b, b) == Dot(c, c) && Dot(b, c) == 0.0
    requires Dot(a, Cross(b, c)) == 1.0
    ensures a == Cross(b, c)
  {
    hide Cross, Dot, Prod;
    var w := Cross(b, c);
    Lagrange(b, c);
    ProdUnits(1.0);
    ProdUnits(0.0);
    DifferenceNorm(a, w);
    OnlyZero(Plus(a, Scale(-1.0, w)));
    NoDifference(a, w);
  }

  lemma NoDifference(a: Vec3, w: Vec3)
    requires Plus(a, Scale(-1.0, w)) == ZERO3
    ensures a == w
  {
  }

  lemma DifferenceNorm(a: Vec3, w: Vec3)
    ensures var d := Plus(a, Scale(-1.0, w));
            Dot(d, d) == Dot(a, a) - 2.0 * Dot(a, w) + Dot(w, w)
  {
    hide Dot, Scale, Plus, Prod;
    var s := Scale(-1.0, w);
    DotPlus(Plus(a, s), a, s);
    DotPlus(a, a, s);
    DotPlus(s, a, s);
    DotScale(-1.0, w, a);
    DotScale(-1.0, a, w);
    DotScale(-1.0, w, s);
    DotScale(-1.0, w, w);
    DotCommutes(a, w);
    Negated(Dot(a, w));
    Negated(Dot(w, w));
    Negated(-Dot(w, w));
  }

  lemma Negated(a: real)
    ensures Prod(-1.0, a) == -a
  {
  }

  lemma OnlyZero(d: Vec3)
    requires Dot(d, d) == 0.0
    ensures d == ZERO3
  {
    SquareZero(d.x, d.y, d.z);
  }

  lemma SquareZero(x: real, y: real, z: real)
    requires x * x + y * y + z * z == 0.0
    ensures x == 0.0 && y == 0.0 && z == 0.0
  {
    NonNegative(x);
    NonNegative(y);
    NonNegative(z);
    OneIsZero(x, x);
    OneIsZero(y, y);
    OneIsZero(z, z);
  }

  lemma ProdMinus(s: real, p: real, q: real)
    ensures Prod(s, p - q) == Prod(s, p) - Prod(s, q)
  {
  }

  lemma ProdRotates(a: real, b: real, c: real)
    ensures Prod(a, Prod(b, c)) == Prod(b, Prod(c, a))
  {
    assert a * (b * c) == b * (c * a);
  }

  lemma CyclicStep(a: Vec3, b: Vec3, c: Vec3)
    ensures Dot(a, Cross(b, c)) == Dot(b, Cross(c, a))
  {
    hide Prod;
    ProdMinus(a.x, Prod(b.y, c.z), Prod(b.z, c.y));
    ProdMinus(a.y, Prod(b.z, c.x), Prod(b.x, c.z));
    ProdMinus(a.z, Prod(b.x, c.y), Prod(b.y, c.x));
    ProdMinus(b.x, Prod(c.y, a.z), Prod(c.z, a.y));
    ProdMinus(b.y, Prod(c.z, a.x), Prod(c.x, a.z));
    ProdMinus(b.z, Prod(c.x, a.y), Prod(c.y, a.x));
    ProdRotates(a.x, b.y, c.z);
    ProdRotates(a.x, b.z, c.y);
    ProdRotates(a.y, b.z, c.x);
    ProdRotates(a.y, b.x, c.z);
    ProdRotates(a.z, b.x, c.y);
    ProdRotates(a.z, b.y, c.x);
  }

  lemma Cyclic(a: Vec3, b: Vec3, c: Vec3)
    ensures Dot(a, Cross(b, c)) == Dot(b, Cross(c, a)) == Dot(c, Cross(a, b))
  {
    hide Dot, Cross;
    CyclicStep(a, b, c);
    CyclicStep(b, c, a);
  }

  lemma RotationIsProper(r: Mat3)
    requires Rotation(r)
    ensures Proper(r)
  {
    var a, b, c := Row0(r), Row1(r), Row2(r);
    assert OrthonormalRows(r);
    Cyclic(a, b, c);
    IsCross(a, b, c);
    IsCross(b, c, a);
    IsCross(c, a, b);
    ColumnsOrthonormal(r);
  }

  lemma ColumnsOrthonormal(r: Mat3)
    requires OrthonormalRows(r) && SelfCofactor(r)
    ensures OrthonormalRows(Transpose(r))
  {
    Column(r.m00, r.m01, r.m02, r.m10, r.m11, r.m12, r.m20, r.m21, r.m22);
    Column(r.m01, r.m02, r.m00, r.m11, r.m12, r.m10, r.m21, r.m22, r.m20);
    Column(r.m02, r.m00, r.m01, r.m12, r.m10, r.m11, r.m22, r.m20, r.m21);
  }

  // Expanding the determinant along a column, and along one with the cofactors of another;
  // u, v and w are the rows
  lemma Column(ux: real, uy: real, uz: real, vx: real, vy: real, vz: real, wx: real, wy: real, wz: real)
    requires Prod(ux, ux) + Prod(uy, uy) + Prod(uz, uz) == 1.0
    requires ux == Prod(vy, wz) - Prod(vz, wy) && uy == Prod(vz, wx) - Prod(vx, wz)
    requires uz == Prod(vx, wy) - Prod(vy, wx)
    requires vx == Prod(wy, uz) - Prod(wz, uy) && wx == Prod(uy, vz) - Prod(uz, vy)
    ensures Prod(ux, ux) + Prod(vx, vx) + Prod(wx, wx) == 1.0
    ensures Prod(ux, uy) + Prod(vx, vy) + Prod(wx, wy) == 0.0
    ensures Prod(uy, ux) + Prod(vy, vx) + Prod(wy, wx) == 0.0
  {
    Expansion(ux, uy, uz, vx, vy, vz, wx, wy, wz);
    hide Prod;
    ProdCommutes(ux, uy);
    ProdCommutes(vx, vy);
    ProdCommutes(wx, wy);
  }

  lemma Expansion(ux: real, uy: real, uz: real, vx: real, vy: real, vz: real, wx: real, wy: real, wz: real)
    ensures var a, b, c := Prod(vy, wz) - Prod(vz, wy), Prod(wy, uz) - Prod(wz, uy), Prod(uy, vz) - Prod(uz, vy);
            && Prod(ux, a) + Prod(vx, b) + Prod(wx, c)
               == Prod(ux, a) + Prod(uy, Prod(vz, wx) - Prod(vx, wz)) + Prod(uz, Prod(vx, wy) - Prod(vy, wx))
            && Prod(uy, a) + Prod(vy, b) + Prod(wy, c) == 0.0
  {
  }

  // ------------------------------------------------------------ four times the squares

  // The ten sums the conversion takes from the matrix; for the matrix of q they are
  // four times the products of the components of q
  datatype Sums = Sums(ii: real, xx: real, yy: real, zz: real,
                       ix: real, iy: real, iz: real, xy: real, yz: real, zx: real)

  function SumsOf(r: Mat3): Sums {
    Sums(1.0 + r.m00 + r.m11 + r.m22, 1.0 + r.m00 - r.m11 - r.m22,
         1.0 - r.m00 + r.m11 - r.m22, 1.0 - r.m00 - r.m11 + r.m22,
         r.m12 - r.m21, r.m20 - r.m02, r.m01 - r.m10,
         r.m01 + r.m10, r.m12 + r.m21, r.m20 + r.m02)
  }

  // Renaming the axes x, y, z to y, z, x
  function TurnMat(r: Mat3): Mat3 {
    Mat3(r.m11, r.m12, r.m10, r.m21, r.m22, r.m20, r.m01, r.m02, r.m00)
  }

  lemma TurnProper(r: Mat3)
    requires Proper(r)
    ensures Proper(TurnMat(r))
  {
  }

  // The identities whose other instances follow by renaming axes
  predicate FirstProducts(s: Sums) {
    && Prod(s.ix, s.ix) == Prod(s.ii, s.xx)
    && Prod(s.xy, s.xy) == Prod(s.xx, s.yy)
    && Prod(s.ix, s.iy) == Prod(s.ii, s.xy)
    && Prod(s.ix, s.xy) == Prod(s.xx, s.iy)
    && Prod(s.ix, s.zx) == Prod(s.xx, s.iz)
    && Prod(s.xy, s.zx) == Prod(s.xx, s.yz)
  }

  // The expansions, with factors in the order of the rows, columns and cofactors

  lemma Squares(a: real, b: real, c: real, p: real, q: real)
    ensures Prod(p - q, p - q) == Prod(p, p) - 2.0 * Prod(p, q) + Prod(q, q)
    ensures Prod(p + q, p + q) == Prod(p, p) + 2.0 * Prod(p, q) + Prod(q, q)
    ensures Prod(1.0 + a + b + c, 1.0 + a - b - c) ==
            1.0 + 2.0 * a + Prod(a, a) - Prod(b, b) - 2.0 * Prod(b, c) - Prod(c, c)
    ensures Prod(1.0 + a - b - c, 1.0 - a + b - c) ==
            1.0 - 2.0 * c + Prod(c, c) - Prod(a, a) - Prod(b, b) + 2.0 * Prod(a, b)
  {
  }

  lemma TwoByTwo(a: real, b: real, c: real, d: real)
    ensures Prod(a - b, c - d) == Prod(a, c) - Prod(a, d) - Prod(b, c) + Prod(b, d)
    ensures Prod(a - b, c + d) == Prod(a, c) + Prod(a, d) - Prod(b, c) - Prod(b, d)
    ensures Prod(a + b, c + d) == Prod(a, c) + Prod(a, d) + Prod(b, c) + Prod(b, d)
  {
  }

  lemma FourByTwo(a: real, b: real, c: real, d: real, e: real)
    ensures Prod(1.0 + a + b + c, d + e) ==
            d + e + Prod(a, d) + Prod(a, e) + Prod(b, d) + Prod(b, e) + Prod(c, d) + Prod(c, e)
    ensures Prod(1.0 + a - b - c, d - e) ==
            d - e + Prod(a, d) - Prod(a, e) - Prod(b, d) + Prod(b, e) - Prod(c, d) + Prod(c, e)
    ensures Prod(1.0 + a - b - c, d + e) ==
            d + e + Prod(a, d) + Prod(a, e) - Prod(b, d) - Prod(b, e) - Prod(c, d) - Prod(c, e)
  {
  }

  lemma PivotSquare(r: Mat3)
    requires Proper(r)
    ensures var s := SumsOf(r); Prod(s.ix, s.ix) == Prod(s.ii, s.xx)
  {
    hide Prod;
    Squares(r.m00, r.m11, r.m22, r.m12, r.m21);
  }

  lemma AxisSquare(r: Mat3)
    requires Proper(r)
    ensures var s := SumsOf(r); Prod(s.xy, s.xy) == Prod(s.xx, s.yy)
  {
    hide Prod;
    Squares(r.m00, r.m11, r.m22, r.m01, r.m10);
  }

  lemma PivotProduct(r: Mat3)
    requires Proper(r)
    ensures var s := SumsOf(r); Prod(s.ix, s.iy) == Prod(s.ii, s.xy)
  {
    hide Prod;
    TwoByTwo(r.m12, r.m21, r.m20, r.m02);
    FourByTwo(r.m00, r.m11, r.m22, r.m01, r.m10);
    ProdCommutes(r.m12, r.m02);
    ProdCommutes(r.m21, r.m20);
    ProdCommutes(r.m11, r.m01);
    ProdCommutes(r.m11, r.m10);
    ProdCommutes(r.m22, r.m10);
  }

  lemma NextProduct(r: Mat3)
    requires Proper(r)
    ensures var s := SumsOf(r); Prod(s.ix, s.xy) == Prod(s.xx, s.iy)
  {
    hide Prod;
    TwoByTwo(r.m12, r.m21, r.m01, r.m10);
    FourByTwo(r.m00, r.m11, r.m22, r.m20, r.m02);
    ProdCommutes(r.m12, r.m01);
    ProdCommutes(r.m21, r.m10);
    ProdCommutes(r.m00, r.m20);
    ProdCommutes(r.m00, r.m02);
    ProdCommutes(r.m11, r.m02);
  }

  lemma LastProduct(r: Mat3)
    requires Proper(r)
    ensures var s := SumsOf(r); Prod(s.ix, s.zx) == Prod(s.xx, s.iz)
  {
    hide Prod;
    TwoByTwo(r.m12, r.m21, r.m20, r.m02);
    FourByTwo(r.m00, r.m11, r.m22, r.m01, r.m10);
    ProdCommutes(r.m12, r.m02);
    ProdCommutes(r.m21, r.m20);
    ProdCommutes(r.m11, r.m01);
    ProdCommutes(r.m11, r.m10);
    ProdCommutes(r.m22, r.m10);
  }

  lemma AxisProduct(r: Mat3)
    requires Proper(r)
    ensures var s := SumsOf(r); Prod(s.xy, s.zx) == Prod(s.xx, s.yz)
  {
    hide Prod;
    TwoByTwo(r.m01, r.m10, r.m20, r.m02);
    FourByTwo(r.m00, r.m11, r.m22, r.m12, r.m21);
    ProdCommutes(r.m01, r.m20);
    ProdCommutes(r.m10, r.m02);
    ProdCommutes(r.m00, r.m21);
    ProdCommutes(r.m22, r.m12);
    ProdCommutes(r.m22, r.m21);
  }

  lemma ProductsHold(r: Mat3)
    requires Proper(r)
    ensures FirstProducts(SumsOf(r))
  {
    hide Prod, Proper;
    PivotSquare(r);
    AxisSquare(r);
    PivotProduct(r);
    NextProduct(r);
    LastProduct(r);
    AxisProduct(r);
  }

  // Every product of two sums in one row of the symmetric table
  predicate RankOne(s: Sums) {
    && Prod(s.ix, s.ix) == Prod(s.ii, s.xx) && Prod(s.iy, s.iy) == Prod(s.ii, s.yy)
    && Prod(s.iz, s.iz) == Prod(s.ii, s.zz)
    && Prod(s.xy, s.xy) == Prod(s.xx, s.yy) && Prod(s.yz, s.yz) == Prod(s.yy, s.zz)
    && Prod(s.zx, s.zx) == Prod(s.zz, s.xx)
    && Prod(s.ix, s.iy) == Prod(s.ii, s.xy) && Prod(s.iy, s.iz) == Prod(s.ii, s.yz)
    && Prod(s.iz, s.ix) == Prod(s.ii, s.zx)
    && Prod(s.ix, s.xy) == Prod(s.xx, s.iy) && Prod(s.iy, s.yz) == Prod(s.yy, s.iz)
    && Prod(s.iz, s.zx) == Prod(s.zz, s.ix)
    && Prod(s.ix, s.zx) == Prod(s.xx, s.iz) && Prod(s.iy, s.xy) == Prod(s.yy, s.ix)
    && Prod(s.iz, s.yz) == Prod(s.zz, s.iy)
    && Prod(s.xy, s.zx) == Prod(s.xx, s.yz) && Prod(s.yz, s.xy) == Prod(s.yy, s.zx)
    && Prod(s.zx, s.yz) == Prod(s.zz, s.xy)
  }

  function TurnSums(s: Sums): Sums {
    Sums(s.ii, s.yy, s.zz, s.xx, s.iy, s.iz, s.ix, s.yz, s.zx, s.xy)
  }

  lemma SumsTurn(r: Mat3)
    ensures SumsOf(TurnMat(r)) == TurnSums(SumsOf(r))
  {
  }

  lemma RotationRankOne(r: Mat3)
    requires Rotation(r)
    ensures RankOne(SumsOf(r))
  {
    hide Rotation, Proper, SumsOf;
    var r1 := TurnMat(r);
    RotationIsProper(r);
    TurnProper(r);
    TurnProper(r1);
    ProductsHold(r);
    ProductsHold(r1);
    ProductsHold(TurnMat(r1));
    SumsTurn(r);
    SumsTurn(r1);
  }

  // ------------------------------------------------------------ matrix to quaternion to matrix

  // q has the products of components that the sums give
  predicate Matches(q: Quat, s: Sums) {
    && Prod(q.qi, q.qi) == s.ii / 4.0 && Prod(q.qx, q.qx) == s.xx / 4.0
    && Prod(q.qy, q.qy) == s.yy / 4.0 && Prod(q.qz, q.qz) == s.zz / 4.0
    && Prod(q.qi, q.qx) == s.ix / 4.0 && Prod(q.qi, q.qy) == s.iy / 4.0
    && Prod(q.qi, q.qz) == s.iz / 4.0 && Prod(q.qx, q.qy) == s.xy / 4.0
    && Prod(q.qy, q.qz) == s.yz / 4.0 && Prod(q.qx, q.qz) == s.zx / 4.0
  }

  lemma MatchesIsMatrix(q: Quat, r: Mat3)
    requires Matches(q, SumsOf(r))
    ensures Unit(q) && Hom(q) == r
  {
    hide Prod;
  }

  // Dividing two entries of the pivot's row by twice the root of the pivot
  lemma Divided(root: real, pivot: real, ka: real, kb: real, kab: real)
    requires root > 0.0 && Prod(root, root) == pivot && Prod(ka, kb) == Prod(pivot, kab)
    ensures Prod(ka / (2.0 * root), kb / (2.0 * root)) == kab / 4.0
  {
    var f := 2.0 * root;
    var a, b := ka / f, kb / f;
    assert a * f == ka && b * f == kb;
    Regroup(a, b, f, ka, kb);
    PositiveProduct(root, root, pivot);
    assert f * f == 4.0 * pivot;
    assert (kab / 4.0) * (4.0 * pivot) == pivot * kab;
    Cancel(a * b, kab / 4.0, f * f, (a * b) * (f * f));
  }

  lemma Regroup(a: real, b: real, f: real, ka: real, kb: real)
    requires a * f == ka && b * f == kb
    ensures (a * b) * (f * f) == ka * kb
  {
    assert (a * b) * (f * f) == (a * f) * (b * f);
  }

  lemma Cancel(x: real, y: real, c: real, p: real)
    requires c > 0.0 && x * c == p == y * c
    ensures x == y
  {
    assert (x - y) * c == 0.0;
    OneIsZero(x - y, c);
  }

  lemma PivotDivided(root: real, pivot: real, ka: real)
    requires root > 0.0 && Prod(root, root) == pivot
    ensures Prod(0.5 * root, 0.5 * root) == pivot / 4.0
    ensures Prod(0.5 * root, ka / (2.0 * root)) == ka / 4.0
    ensures Prod(ka / (2.0 * root), 0.5 * root) == ka / 4.0
  {
    var a := ka / (2.0 * root);
    assert a * (2.0 * root) == ka;
  }

  // The radicand is the greatest of the four squares, and they add up to 4
  lemma RadicandIsLarge(r: Mat3)
    ensures Radicand(r) >= 1.0
  {
  }

  // The quaternion whose pivot is the first of four components, from one row of the table
  lemma Row(root: real, pp: real, pa: real, pb: real, pc: real,
            aa: real, bb: real, cc: real, ab: real, bc: real, ca: real)
    requires root > 0.0 && Prod(root, root) == pp
    requires Prod(pa, pa) == Prod(pp, aa) && Prod(pb, pb) == Prod(pp, bb) && Prod(pc, pc) == Prod(pp, cc)
    requires Prod(pa, pb) == Prod(pp, ab) && Prod(pb, pc) == Prod(pp, bc) && Prod(pc, pa) == Prod(pp, ca)
    ensures var p, a, b, c := 0.5 * root, pa / (2.0 * root), pb / (2.0 * root), pc / (2.0 * root);
            && Prod(p, p) == pp / 4.0
            && Prod(p, a) == Prod(a, p) == pa / 4.0
            && Prod(p, b) == Prod(b, p) == pb / 4.0
            && Prod(p, c) == Prod(c, p) == pc / 4.0
            && Prod(a, a) == aa / 4.0 && Prod(b, b) == bb / 4.0 && Prod(c, c) == cc / 4.0
            && Prod(a, b) == Prod(b, a) == ab / 4.0
            && Prod(b, c) == Prod(c, b) == bc / 4.0
            && Prod(c, a) == Prod(a, c) == ca / 4.0
  {
    hide Prod;
    PivotDivided(root, pp, pa);
    PivotDivided(root, pp, pb);
    PivotDivided(root, pp, pc);
    Divided(root, pp, pa, pa, aa);
    Divided(root, pp, pb, pb, bb);
    Divided(root, pp, pc, pc, cc);
    Divided(root, pp, pa, pb, ab);
    Divided(root, pp, pb, pc, bc);
    Divided(root, pp, pc, pa, ca);
    var f := 2.0 * root;
    ProdCommutes(pa / f, pb / f);
    ProdCommutes(pb / f, pc / f);
    ProdCommutes(pc / f, pa / f);
  }

  // On every branch
  lemma QuatMatches(r: Mat3, root: real)
    requires root > 0.0 && Prod(root, root) == Radicand(r) && RankOne(SumsOf(r))
    ensures Matches(QuatOfRmat(r, root), SumsOf(r))
  {
    hide Prod;
    var s := SumsOf(r);
    ProdSwap(s);
    if r.m00 + r.m11 + r.m22 > 0.0 {
      Row(root, s.ii, s.ix, s.iy, s.iz, s.xx, s.yy, s.zz, s.xy, s.yz, s.zx);
    } else if r.m00 > r.m11 && r.m00 > r.m22 {
      Row(root, s.xx, s.ix, s.xy, s.zx, s.ii, s.yy, s.zz, s.iy, s.yz, s.iz);
    } else if r.m11 > r.m22 {
      Row(root, s.yy, s.iy, s.yz, s.xy, s.ii, s.zz, s.xx, s.iz, s.zx, s.ix);
    } else {
      Row(root, s.zz, s.iz, s.zx, s.yz, s.ii, s.xx, s.yy, s.ix, s.xy, s.iy);
    }
  }

  // RankOne with the factors of a side in the other order
  lemma ProdSwap(s: Sums)
    requires RankOne(s)
    ensures Prod(s.ix, s.ix) == Prod(s.xx, s.ii) && Prod(s.iy, s.iy) == Prod(s.yy, s.ii)
    ensures Prod(s.iz, s.iz) == Prod(s.zz, s.ii)
    ensures Prod(s.xy, s.xy) == Prod(s.yy, s.xx) && Prod(s.yz, s.yz) == Prod(s.zz, s.yy)
    ensures Prod(s.zx, s.zx) == Prod(s.xx, s.zz)
    ensures Prod(s.zx, s.ix) == Prod(s.xx, s.iz) && Prod(s.xy, s.iy) == Prod(s.yy, s.ix)
    ensures Prod(s.yz, s.iz) == Prod(s.zz, s.iy)
  {
  }

  // ------------------------------------------------------------ the converse

  lemma HomCofactor(q: Quat)
    ensures Cross(Row1(Hom(q)), Row2(Hom(q))) == Scale(Norm2(q), Row0(Hom(q)))
  {
    var h := Hom(q);
    CofactorTerms(q.qi, q.qx, q.qy, q.qz, Norm2(q), h);
    hide Prod;
  }

  lemma CofactorTerms(i: real, x: real, y: real, z: real, n: real, h: Mat3)
    requires n == i * i + x * x + y * y + z * z
    requires h.m00 == i * i + x * x - y * y - z * z
    requires h.m01 == 2.0 * (x * y + i * z) && h.m02 == 2.0 * (x * z - i * y)
    requires h.m10 == 2.0 * (x * y - i * z) && h.m12 == 2.0 * (y * z + i * x)
    requires h.m20 == 2.0 * (x * z + i * y) && h.m21 == 2.0 * (y * z - i * x)
    requires h.m11 == i * i - x * x + y * y - z * z && h.m22 == i * i - x * x - y * y + z * z
    ensures Prod(h.m11, h.m22) - Prod(h.m12, h.m21) == Prod(n, h.m00)
    ensures Prod(h.m12, h.m20) - Prod(h.m10, h.m22) == Prod(n, h.m01)
    ensures Prod(h.m10, h.m21) - Prod(h.m11, h.m20) == Prod(n, h.m02)
  {
    hide Prod;
    DiagonalCofactor(i, x, y, z, n, h.m00, h.m11, h.m22, h.m12, h.m21);
    NextCofactor(i, x, y, z, n, h.m01, h.m12, h.m20, h.m10, h.m22);
    LastCofactor(i, x, y, z, n, h.m02, h.m10, h.m21, h.m11, h.m20);
  }

  lemma DiagonalCofactor(i: real, x: real, y: real, z: real, n: real,
                         a: real, b: real, c: real, d: real, e: real)
    requires n == i * i + x * x + y * y + z * z && a == i * i + x * x - y * y - z * z
    requires b == i * i - x * x + y * y - z * z && c == i * i - x * x - y * y + z * z
    requires d == 2.0 * (y * z + i * x) && e == 2.0 * (y * z - i * x)
    ensures Prod(b, c) - Prod(d, e) == Prod(n, a)
  {
  }

  lemma NextCofactor(i: real, x: real, y: real, z: real, n: real,
                     a: real, b: real, c: real, d: real, e: real)
    requires n == i * i + x * x + y * y + z * z && a == 2.0 * (x * y + i * z)
    requires b == 2.0 * (y * z + i * x) && c == 2.0 * (x * z + i * y)
    requires d == 2.0 * (x * y - i * z) && e == i * i - x * x - y * y + z * z
    ensures Prod(b, c) - Prod(d, e) == Prod(n, a)
  {
  }

  lemma LastCofactor(i: real, x: real, y: real, z: real, n: real,
                     a: real, b: real, c: real, d: real, e: real)
    requires n == i * i + x * x + y * y + z * z && a == 2.0 * (x * z - i * y)
    requires b == 2.0 * (x * y - i * z) && c == 2.0 * (y * z - i * x)
    requires d == i * i - x * x + y * y - z * z && e == 2.0 * (x * z + i * y)
    ensures Prod(b, c) - Prod(d, e) == Prod(n, a)
  {
  }

  /** The matrix of a unit quaternion is a rotation. */
  lemma RmatIsRotation(q: Quat, sqrt2: real)
    requires Unit(q) && sqrt2 * sqrt2 == 2.0
    ensures Rotation(RmatOfQuat(q, sqrt2))
  {
    var r := RmatOfQuat(q, sqrt2);
    RmatIsHom(q, sqrt2);
    RmatIsOrthogonal(q, sqrt2);
    HomCofactor(q);
    hide RmatOfQuat, Hom, Cross;
    UnitScale(Row0(r));
    FirstRow(r);
  }

  lemma UnitScale(v: Vec3)
    ensures Scale(1.0, v) == v
  {
  }

  lemma FirstRow(r: Mat3)
    requires Mul(r, Transpose(r)) == Diag(1.0, 1.0, 1.0)
    ensures Dot(Row0(r), Row0(r)) == 1.0
  {
    hide Prod;
  }

  /**
   FLOAT_RMAT_OF_QUAT undoes FLOAT_QUAT_OF_RMAT exactly on the rotations: orthogonal matrices
   of determinant 1. The root it takes is never below 1.
   */
  lemma RmatRoundTripIff(r: Mat3, sqrt2: real, root: real)
    requires sqrt2 * sqrt2 == 2.0
    requires root >= 0.0 && Prod(root, root) == Radicand(r)
    ensures root >= 1.0
    ensures var q := QuatOfRmat(r, root);
            Unit(q) && RmatOfQuat(q, sqrt2) == r <==> Rotation(r)
  {
    RadicandIsLarge(r);
    AtLeastOne(root);
    hide RmatOfQuat, QuatOfRmat, Rotation, Radicand, Hom, Norm2, Matches, SumsOf, RankOne, Prod;
    var q := QuatOfRmat(r, root);
    if Rotation(r) {
      RotationRankOne(r);
      QuatMatches(r, root);
      MatchesIsMatrix(q, r);
      RmatIsHom(q, sqrt2);
    }
    if Unit(q) && RmatOfQuat(q, sqrt2) == r {
      RmatIsRotation(q, sqrt2);
    }
  }

  lemma AtLeastOne(root: real)
    requires root >= 0.0 && Prod(root, root) >= 1.0
    ensures root >= 1.0
  {
    assert (root - 1.0) * (root + 1.0) == root * root - 1.0;
    SameSign(root - 1.0, root + 1.0);
  }
}
