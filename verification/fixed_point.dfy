/**
 Integer square root, angle folding and arc tangent of pprz_algebra_int.h, and the sine
 table access of pprz_trig_int.h.
 */
module IntegerSqrt {
  import opened CInts

  const MAX_ITER := 40

  // The only argument for which the iteration overflows
  const OVERFLOWING: uint32 := 0xFFFF_FFFF

  /** One iteration, on 32-bit unsigned values. */
  function Next(n: uint32, s: uint32): uint32
    requires s != 0
  {
    ToUint32(n / s + s) / 2
  }

  // f is the integer part of the square root of n
  predicate IsFloorRoot(n: nat, f: nat) {
    f * f <= n < (f + 1) * (f + 1)
  }

  lemma FloorRootExists(n: nat) returns (f: nat)
    ensures IsFloorRoot(n, f)
  {
    f := 0;
    while (f + 1) * (f + 1) <= n
      invariant f * f <= n
      decreases n - f * f
    {
      assert f * f < (f + 1) * (f + 1);
      f := f + 1;
    }
  }

  /** The second divisor is zero for one argument only. */
  lemma SecondDivisorZeroIff(n: uint32)
    requires n != 0
    ensures Next(n, n) == 0 <==> n == OVERFLOWING
  {
    assert n / n == 1;
  }

  lemma QuotientBounds(n: nat, s: nat, q: nat)
    requires s > 0 && q == n / s
    ensures q * s <= n < (q + 1) * s
  {
  }

  lemma MulLess(a: nat, b: nat, c: nat, d: nat)
    requires a <= b && c <= d
    ensures a * c <= b * d
  {
  }

  lemma ProductBelowSquare(a: nat, b: nat, f: nat)
    requires a + b <= 2 * f
    ensures a * b <= f * f
  {
    var d := a - b;
    assert 4 * (a * b) == (a + b) * (a + b) - d * d;
    assert d * d >= 0;
    MulLess(a + b, 2 * f, a + b, 2 * f);
  }

  lemma CancelBound(a: nat, b: nat, s: nat)
    requires a * s < b * s
    ensures a < b
  {
  }

  // No iterate goes below the root, nor above the argument
  lemma NextAboveRoot(n: uint32, s: uint32, f: nat)
    requires n != OVERFLOWING && IsFloorRoot(n, f) && 1 <= s <= n
    ensures Next(n, s) == (n / s + s) / 2
    ensures f <= Next(n, s) <= n
  {
    var q := n / s;
    QuotientBounds(n, s, q);
    MulLess(q, q, 1, s);
    assert q + s <= n + 1 by { QuotientSum(n, s, q); }
    if q + 1 + s <= 2 * f {
      ProductBelowSquare(q + 1, s, f);
      assert false;
    }
  }

  lemma QuotientSum(n: nat, s: nat, q: nat)
    requires 1 <= s <= n && q * s <= n
    ensures q + s <= n + 1
  {
    if q >= 1 {
      assert (q - 1) * (s - 1) >= 0;
      assert (q - 1) * (s - 1) == q * s - q - s + 1;
    }
  }

  /** Above the root, the distance to it at least halves. */
  lemma NextHalves(n: uint32, s: uint32, f: nat)
    requires n != OVERFLOWING && IsFloorRoot(n, f) && f < s <= n
    ensures Next(n, s) >= f && 2 * (Next(n, s) - f) <= s - f
    ensures Next(n, s) == s - 1 ==>
              Next(n, s) == f || (Next(n, s) == f + 1 && n + 1 == (f + 1) * (f + 1))
  {
    var q := n / s;
    NextAboveRoot(n, s, f);
    QuotientBounds(n, s, q);
    hide Next, ToUint32;
    HalvesBelow(n, s, f, q);
  }

  lemma HalvesBelow(n: nat, s: nat, f: nat, q: nat)
    requires IsFloorRoot(n, f) && f < s && q * s <= n < (q + 1) * s
    ensures q <= f
    ensures (q + s) / 2 == s - 1 ==> s == f + 1 || (s == f + 2 && n + 1 == (f + 1) * (f + 1))
  {
    MulLess(f + 1, f + 1, f + 1, s);
    CancelBound(q, f + 1, s);
    if (q + s) / 2 == s - 1 && s != f + 1 {
      assert s == f + 2 && q == f;
      assert f * (f + 2) == (f + 1) * (f + 1) - 1;
    }
  }

  lemma SquareOfNext(f: nat)
    ensures (f + 1) * (f + 1) == f * f + 2 * f + 1
    ensures (f + 1) * f == f * f + f && (f + 2) * f == f * f + 2 * f
    ensures (f + 3) * f == f * f + 3 * f
  {
  }

  // The quotient of n by its root
  lemma QuotientAtRoot(n: nat, f: nat, q: nat)
    requires IsFloorRoot(n, f) && f >= 1 && q * f <= n < (q + 1) * f
    ensures f <= q <= f + 2 && (q == f + 2 <==> n + 1 == (f + 1) * (f + 1))
  {
    SquareOfNext(f);
    CancelBound(f, q + 1, f);
    CancelBound(q, f + 3, f);
    if q >= f + 2 {
      MulLess(f + 2, q, f, f);
    } else {
      MulLess(q + 1, f + 2, f, f);
    }
  }

  lemma RootPositive(n: nat, f: nat)
    requires IsFloorRoot(n, f) && n >= 1
    ensures 1 <= f <= n
  {
    if f == 0 { assert false; }
    MulLess(1, f, f, f);
  }

  /** At the root, the next iterate is the root or, just below a square, one more. */
  lemma NextAtRoot(n: uint32, f: nat)
    requires n != OVERFLOWING && IsFloorRoot(n, f) && n >= 1
    ensures 1 <= f <= n
    ensures Next(n, f) == if n + 1 == (f + 1) * (f + 1) then f + 1 else f
  {
    RootPositive(n, f);
    NextAboveRoot(n, f, f);
    QuotientBounds(n, f, n / f);
    QuotientAtRoot(n, f, n / f);
  }

  // And from one more it comes back
  lemma NextAfterRoot(n: uint32, f: nat)
    requires n != OVERFLOWING && IsFloorRoot(n, f) && n + 1 == (f + 1) * (f + 1) && n >= 1
    ensures f + 1 <= n && Next(n, f + 1) == f
  {
    RootPositive(n, f);
    SquareOfNext(f);
    assert f + 1 <= n by { MulLess(1, f, f, f); }
    NextHalves(n, f + 1, f);
  }

  function Pow2(n: nat): nat {
    if n == 0 then 1 else 2 * Pow2(n - 1)
  }

  lemma {:induction false} Pow2Grows(n: nat)
    requires n >= 32
    ensures Pow2(n) >= 0x1_0000_0000
  {
    if n == 32 {
      assert Pow2(8) == 0x100;
      assert Pow2(16) == 0x1_0000;
      assert Pow2(24) == 0x100_0000;
    } else {
      Pow2Grows(n - 1);
    }
  }

  // The iterate s after iter iterations, while the loop goes on: on the way down to the
  // root, or at the root, or once one above it
  predicate Descending(n: uint32, f: nat, s: nat, iter: nat) {
    f <= s && (s - f) * Pow2(iter) <= n && iter <= 32
  }

  predicate Bouncing(n: uint32, f: nat, s: nat, iter: nat) {
    s == f + 1 && n + 1 == (f + 1) * (f + 1) && iter <= 33
  }

  // What the loop leaves behind
  predicate IsRoot(n: uint32, s: nat) {
    IsFloorRoot(n, s) || s * s == n + 1
  }

  // The loop goes on from t, or ends with a root
  predicate Continues(n: uint32, f: nat, s: uint32, t: uint32, iter: nat) {
    if ToUint32(s - t) <= 1 then IsRoot(n, t)
    else Descending(n, f, t, iter) || Bouncing(n, f, t, iter)
  }

  lemma FromAbove(n: uint32, f: nat, s: uint32, t: uint32, iter: nat)
    requires n != OVERFLOWING && IsFloorRoot(n, f) && f < s <= n && t == Next(n, s)
    requires Descending(n, f, s, iter)
    ensures iter <= 31 && Continues(n, f, s, t, iter + 1)
  {
    NextHalves(n, s, f);
    hide Next, Pow2, IsFloorRoot;
    HalvedDistance(n, s - f, t - f, iter);
    SmallStep(s, t);
    AboveRoot(n, f);
  }

  lemma AboveRoot(n: uint32, f: nat)
    ensures IsFloorRoot(n, f) || n + 1 == f * f ==> IsRoot(n, f)
  {
  }

  // With t below s the unsigned difference is the difference
  lemma SmallStep(s: uint32, t: uint32)
    requires t < s
    ensures ToUint32(s - t) == s - t
  {
  }

  lemma FromRoot(n: uint32, f: nat, t: uint32, iter: nat)
    requires n != OVERFLOWING && IsFloorRoot(n, f) && 1 <= f <= n && t == Next(n, f)
    requires iter <= 32
    ensures Continues(n, f, f, t, iter + 1)
  {
    NextAtRoot(n, f);
  }

  lemma FromBounce(n: uint32, f: nat, t: uint32, iter: nat)
    requires n != OVERFLOWING && IsFloorRoot(n, f) && n + 1 == (f + 1) * (f + 1) && n >= 1
    requires f + 1 <= n && t == Next(n, f + 1)
    ensures Continues(n, f, f + 1, t, iter)
  {
    NextAfterRoot(n, f);
    SmallStep(f + 1, f);
  }

  // One pass of the loop body, from s to t
  lemma SqrtStep(n: uint32, f: nat, s: uint32, iter: nat, q: nat, t: uint32)
    requires s != 0 && q == n / s && t == ToUint32(q + s) / 2
    requires n != OVERFLOWING && IsFloorRoot(n, f) && 1 <= s <= n
    requires Descending(n, f, s, iter) || Bouncing(n, f, s, iter)
    ensures q + s < 0x1_0000_0000 && 1 <= t <= n && iter <= 33
    ensures Continues(n, f, s, t, iter + 1)
  {
    NextAboveRoot(n, s, f);
    assert t == Next(n, s) && q + s < 0x1_0000_0000;
    RootPositive(n, f);
    hide Next, IsFloorRoot, Continues, Pow2, ToUint32;
    if Bouncing(n, f, s, iter) {
      FromBounce(n, f, t, iter + 1);
    } else if s == f {
      FromRoot(n, f, t, iter);
    } else {
      FromAbove(n, f, s, t, iter);
    }
  }

  lemma SqrtStart(n: uint32, f: nat)
    requires IsFloorRoot(n, f)
    ensures Descending(n, f, n, 0)
  {
    if f >= 1 { MulLess(1, f, f, f); }
  }

  lemma HalvedDistance(n: uint32, d: nat, e: nat, iter: nat)
    requires d >= 1 && d * Pow2(iter) <= n && 2 * e <= d
    ensures iter <= 31 && e * Pow2(iter + 1) <= n
  {
    var p := Pow2(iter);
    MulLess(1, d, p, p);
    if iter >= 32 { Pow2Grows(iter); }
    MulLess(2 * e, d, p, p);
    assert e * (2 * p) == 2 * e * p;
  }

  /**
   INT32_SQRT.  The result is the integer part of the root, or one more when n + 1 is a
   square; no division is by zero, no sum overflows, and the cap of 40 iterations is never
   what ends the loop.
   */
  method Sqrt(n: uint32) returns (out: uint32, iter: nat)
    requires n != OVERFLOWING
    ensures IsRoot(n, out)
    ensures iter <= 34 < MAX_ITER
  {
    iter := 0;
    assert IsRoot(0, 0);
    if n == 0 {
      return 0, 0;
    }
    hide IsRoot, IsFloorRoot, Descending, Bouncing, Next, ToUint32;
    ghost var f := FloorRootExists(n);
    SqrtStart(n, f);
    var s1: uint32, s2: uint32 := 0, n;
    var more := true;
    while more
      invariant 1 <= s2 <= n && iter <= 34
      invariant more ==> Descending(n, f, s2, iter) || Bouncing(n, f, s2, iter)
      invariant !more ==> IsRoot(n, s2)
      decreases more, MAX_ITER - iter
    {
      s1 := s2;
      s2 := n / s1;
      ghost var q := s2;
      s2 := ToUint32(s2 + s1);
      s2 := s2 / 2;
      SqrtStep(n, f, s1, iter, q, s2);
      iter := iter + 1;
      more := ToUint32(s1 - s2) > 1 && iter < MAX_ITER;
    }
    out := s2;
  }

  /** What the result means: s*s <= n + 1 and n < (s + 1)^2. */
  lemma SqrtBounds(n: uint32, s: nat)
    requires IsRoot(n, s)
    ensures s * s <= n + 1 && n < (s + 1) * (s + 1)
  {
    SquareOfNext(s);
  }
}

/** Angles in units of 1/4096 radian. */
module AngleFolding {
  import opened CInts

  // pi/4, pi/2, pi and 2 pi, truncated
  const PI_4: int32 := 3216
  const PI_2: int32 := 6433
  const PI: int32 := 12867
  const TWO_PI: int32 := 25735

  /** The representative of an angle in [-PI, PI]. */
  function Normalized(a: int): int32 {
    (a + PI) % TWO_PI - PI
  }

  /** The representative of a course in [0, TWO_PI). */
  function Course(a: int): int32 {
    a % TWO_PI
  }

  predicate Congruent(a: int, b: int) {
    (a - b) % TWO_PI == 0
  }

  lemma CongruentMeans(a: int, b: int) returns (k: int)
    requires Congruent(a, b)
    ensures a == b + k * 25735
  {
    k := (a - b) / TWO_PI;
  }

  lemma ShiftedRemainder(a: int, k: int)
    ensures (a + k * 25735) % 25735 == a % 25735
  {
    var q, r := a / 25735, a % 25735;
    assert a == q * 25735 + r;
    assert a + k * 25735 == (q + k) * 25735 + r;
  }

  /** Normalized picks the only representative in [-PI, PI]. */
  lemma NormalizedUnique(a: int, r: int)
    ensures -PI <= r <= PI && Congruent(a, r) <==> r == Normalized(a)
  {
    if -PI <= r <= PI && Congruent(a, r) {
      var k := CongruentMeans(a, r);
      ShiftedRemainder(r + PI, k);
    }
    var q := (a + PI) / TWO_PI;
    assert a - Normalized(a) == q * 25735;
  }

  /** Normalizing identifies exactly the congruent angles, is idempotent and commutes with sign. */
  lemma NormalizedLaws(a: int, b: int)
    ensures Normalized(a) == Normalized(b) <==> Congruent(a, b)
    ensures Normalized(Normalized(a)) == Normalized(a)
    ensures Normalized(-a) == -Normalized(a)
  {
    var r := Normalized(a);
    NormalizedUnique(a, r);
    NormalizedUnique(r, r);
    var k := CongruentMeans(a, r);
    assert -a - -r == -k * 25735;
    NormalizedUnique(-a, -r);
    NormalizedUnique(b, r);
    if Congruent(a, b) {
      var j := CongruentMeans(a, b);
      assert b - r == (k - j) * 25735;
      assert Congruent(b, r);
    }
    if Normalized(b) == r {
      var j := CongruentMeans(b, r);
      assert a - b == (k - j) * 25735;
    }
  }

  lemma CourseUnique(a: int, r: int)
    ensures 0 <= r < TWO_PI && Congruent(a, r) <==> r == Course(a)
  {
    if 0 <= r < TWO_PI && Congruent(a, r) {
      var k := CongruentMeans(a, r);
      ShiftedRemainder(r, k);
    }
    var q := a / TWO_PI;
    assert a - Course(a) == q * 25735;
  }

  /** INT32_ANGLE_NORMALIZE */
  method AngleNormalize(angle: int32) returns (a: int32)
    ensures a == Normalized(angle)
  {
    a := angle;
    ghost var k := 0;
    while a > PI
      invariant a == angle - k * 25735 && (a >= -PI || k == 0)
      decreases a
    {
      a := a - TWO_PI;
      k := k + 1;
    }
    while a < -PI
      invariant a == angle - k * 25735 && a <= PI
      decreases 0 - a
    {
      a := a + TWO_PI;
      k := k - 1;
    }
    assert angle - a == k * 25735;
    NormalizedUnique(angle, a);
  }

  /** INT32_COURSE_NORMALIZE */
  method CourseNormalize(angle: int32) returns (a: int32)
    ensures a == Course(angle)
  {
    a := angle;
    ghost var k := 0;
    while a < 0
      invariant a == angle + k * 25735 && (a < TWO_PI || k == 0)
      decreases 0 - a
    {
      a := a + TWO_PI;
      k := k + 1;
    }
    while a >= TWO_PI
      invariant a == angle + k * 25735 && a >= 0
      decreases a
    {
      a := a - TWO_PI;
      k := k - 1;
    }
    assert angle - a == -k * 25735;
    CourseUnique(angle, a);
  }
}

/** The sine and cosine look-ups. */
module SineTable {
  import opened CInts
  import opened AngleFolding

  // One quarter of a period; the entries themselves are not part of this model
  type Table = t: seq<int16> | |t| == 6434 && t[0] == 0 witness seq(6434, _ => 0)

  // The angle of the first or fourth quadrant with the same sine
  function Folded(an: int32): int32
    requires -PI <= an <= PI
  {
    if an > PI_2 then PI - an else if an < -PI_2 then -PI - an else an
  }

  function Sine(table: Table, a: int): int {
    var an := Folded(Normalized(a));
    if an >= 0 then table[an] else -(table[-an] as int)
  }

  /** PPRZ_ITRIG_SIN */
  method ItrigSin(table: Table, a: int32) returns (s: int)
    ensures s == Sine(table, a)
  {
    var an := AngleNormalize(a);
    if an > PI_2 {
      an := PI - an;
    } else if an < -PI_2 {
      an := -PI - an;
    }
    if an >= 0 {
      s := table[an];
    } else {
      s := -(table[-an] as int);
    }
  }

  /** PPRZ_ITRIG_COS */
  method ItrigCos(table: Table, a: int32) returns (c: int)
    requires a + PI_2 < 0x8000_0000
    ensures c == Sine(table, a + PI_2)
  {
    c := ItrigSin(table, a + PI_2);
  }

  /** What is looked up on the circle, quarter by quarter. */
  lemma SineQuarters(table: Table, a: int)
    ensures 0 <= a <= 6433 ==> Sine(table, a) == table[a]
    ensures 6433 < a <= 12867 ==> Sine(table, a) == table[12867 - a]
    ensures -6433 <= a < 0 ==> Sine(table, a) == -(table[-a] as int)
    ensures -12867 <= a < -6433 ==> Sine(table, a) == -(table[12867 + a] as int)
  {
    NormalizedUnique(a, a);
  }

  /** The sine is odd and has period TWO_PI. */
  lemma SineLaws(table: Table, a: int, b: int)
    ensures Sine(table, -a) == -Sine(table, a)
    ensures Congruent(a, b) ==> Sine(table, a) == Sine(table, b)
  {
    NormalizedLaws(a, b);
  }

  /** sin(PI - a) == sin(a) on the upper half circle. */
  lemma SineSupplement(table: Table, a: int)
    requires Normalized(a) >= 0
    ensures Sine(table, PI - a) == Sine(table, a)
  {
    hide Normalized, Congruent;
    var r := Normalized(a);
    NormalizedUnique(a, r);
    SupplementCongruent(a, r);
    NormalizedUnique(PI - a, PI - r);
  }

  lemma SupplementCongruent(a: int, r: int)
    requires Congruent(a, r)
    ensures Congruent(PI - a, PI - r)
  {
    var k := CongruentMeans(a, r);
    MultipleIsCongruent(PI - a, PI - r, -k);
  }

  lemma MultipleIsCongruent(a: int, b: int, k: int)
    requires a - b == k * 25735
    ensures Congruent(a, b)
  {
    ShiftedRemainder(0, k);
  }
}

/** INT32_ATAN2 */
module ArcTangent {
  import opened CInts
  import opened AngleFolding

  const R_FRAC := 14

  // Arguments for which the shift by 14 bits does not overflow
  predicate Small(y: int, x: int) {
    -0x1_0000 < x < 0x1_0000 && -0xFFFF < y < 0xFFFF
  }

  function Abs(y: int): nat {
    if y < 0 then -y else y
  }

  /** The ratio r, between -1 and 1 in units of 2^-14. */
  function Ratio(ay: int, x: int): int
    requires ay >= 1
  {
    if x >= 0 then TruncDiv((x - ay) * 16384, x + ay)
    else TruncDiv((x + ay) * 16384, ay - x)
  }

  // An arithmetic shift right by 14 bits is a division rounding down
  function Slope(r: int): int {
    PI_4 * r / 16384
  }

  function Magnitude(ay: int, x: int): int
    requires ay >= 1
  {
    if x >= 0 then PI_4 - Slope(Ratio(ay, x)) else 3 * PI_4 - Slope(Ratio(ay, x))
  }

  function Atan2(y: int, x: int): int {
    var m := Magnitude(Abs(y) + 1, x);
    if y < 0 then -m else m
  }

  // ------------------------------------------------------------ truncating division

  /** Truncation keeps the order of fractions. */
  lemma TruncMonotone(p: int, q: int, u: int, v: int)
    requires q > 0 && v > 0 && p * v <= u * q
    ensures TruncDiv(p, q) <= TruncDiv(u, v)
  {
    if p >= 0 {
      FloorMonotone(p, q, u, v);
    } else if u < 0 {
      CeilIsNegFloor(p, q);
      CeilIsNegFloor(u, v);
      assert -u * q <= -p * v;
      FloorMonotone(-u, v, -p, q);
    } else {
      CeilIsNegFloor(p, q);
      NonNegativeQuotient(-p, q);
      NonNegativeQuotient(u, v);
    }
  }

  lemma NonNegativeQuotient(p: nat, q: nat)
    requires q > 0
    ensures p / q >= 0 && TruncDiv(p, q) == p / q
  {
  }

  lemma CeilIsNegFloor(p: int, q: int)
    requires p < 0 < q
    ensures TruncDiv(p, q) == -(-p / q)
  {
    var a, b := p / q, p % q;
    assert p == a * q + b;
    if b == 0 {
      DivUnique(-p, q, -a, 0);
    } else {
      DivUnique(-p, q, -a - 1, q - b);
    }
  }

  lemma Cancel(a: int, b: int, w: int, aw: int, bw: int)
    requires w > 0 && aw == a * w && bw == b * w && aw < bw
    ensures a < b
  {
  }

  lemma DivUnique(p: int, q: int, a: int, b: int)
    requires q > 0 && p == a * q + b && 0 <= b < q
    ensures p / q == a && p % q == b
  {
    var c, d := p / q, p % q;
    assert p == c * q + d;
    Cancel(c, a + 1, q, c * q, (a + 1) * q);
    Cancel(a, c + 1, q, a * q, (c + 1) * q);
  }

  lemma FloorMonotone(p: int, q: int, u: int, v: int)
    requires q > 0 && v > 0 && p >= 0 && p * v <= u * q
    ensures u >= 0 && TruncDiv(p, q) == p / q <= u / v == TruncDiv(u, v)
  {
    assert p * v >= 0;
    assert u >= 0;
    var a, b, c, d := p / q, p % q, u / v, u % v;
    FloorCompare(p, q, u, v, a, b, c, d);
  }

  lemma FloorCompare(p: int, q: int, u: int, v: int, a: int, b: int, c: int, d: int)
    requires q > 0 && v > 0 && p * v <= u * q
    requires p == a * q + b && 0 <= b && u == c * v + d && d < v
    ensures a <= c
  {
    var w := q * v;
    assert p * v == a * w + b * v by { assert (a * q + b) * v == a * (q * v) + b * v; }
    assert u * q == c * w + d * q by { assert (c * v + d) * q == c * (q * v) + d * q; }
    assert b * v >= 0;
    assert d * q < w by { assert (v - d) * q > 0; }
    Cancel(a, c + 1, w, a * w, (c + 1) * w);
  }

  // ------------------------------------------------------------ the laws of atan2

  /** The shift and the products stay within 32 bits. */
  lemma FitsInt32(y: int, x: int)
    requires Small(y, x)
    ensures var ay := Abs(y) + 1;
            && -0x8000_0000 <= (x - ay) * 16384 < 0x8000_0000
            && -0x8000_0000 <= (x + ay) * 16384 < 0x8000_0000
            && -0x8000_0000 <= PI_4 * Ratio(ay, x) < 0x8000_0000
  {
    RatioRange(Abs(y) + 1, x);
  }

  lemma TruncRange(p: int, q: int, m: int)
    requires q > 0 && m >= 1 && -m * q <= p < m * q
    ensures -m <= TruncDiv(p, q) < m
    ensures -m * q < p ==> -m < TruncDiv(p, q)
  {
    var mq := m * q;
    assert -m * q == -mq;
    if p >= 0 {
      NonNegativeQuotient(p, q);
      FloorBelow(p, q, m, mq);
    } else {
      CeilIsNegFloor(p, q);
      FloorBelow(-p, q, m + 1, mq + q);
      if -mq < p { FloorBelow(-p, q, m, mq); }
    }
  }

  lemma FloorBelow(p: int, q: int, m: int, mq: int)
    requires q > 0 && p >= 0 && mq == m * q && p < mq
    ensures p / q < m
  {
    var c := p / q;
    assert p == c * q + p % q;
    Cancel(c, m, q, c * q, mq);
  }

  lemma RatioRange(ay: int, x: int)
    requires ay >= 1
    ensures -16384 <= Ratio(ay, x) < 16384
    ensures x < 0 ==> -16384 < Ratio(ay, x)
  {
    if x >= 0 {
      TruncRange((x - ay) * 16384, x + ay, 16384);
    } else {
      TruncRange((x + ay) * 16384, ay - x, 16384);
    }
  }

  // The arc tangent of a positive ordinate stays in the right quadrant
  lemma MagnitudeRange(ay: int, x: int)
    requires ay >= 1
    ensures if x >= 0 then 1 <= Magnitude(ay, x) <= 6432 else 6433 <= Magnitude(ay, x) <= 12864
  {
    RatioRange(ay, x);
  }

  /** The result has magnitude 1 to 12864 and the sign of y. */
  lemma Atan2Range(y: int, x: int)
    ensures 1 <= Abs(Atan2(y, x)) <= 12864
    ensures Atan2(y, x) < 0 <==> y < 0
    ensures y != 0 ==> Atan2(-y, x) == -Atan2(y, x)
  {
    MagnitudeRange(Abs(y) + 1, x);
  }

  // Comparing two fractions by cross products
  lemma CrossProducts(p: int, q: int, u: int, v: int, diff: int)
    requires diff >= 0 && u * q - p * v == 2 * diff
    ensures (p * 16384) * v <= (u * 16384) * q
  {
    assert (p * 16384) * v == 16384 * (p * v) && (u * 16384) * q == 16384 * (u * q);
  }

  lemma RatioGrowsWithX(ay: int, x1: int, x2: int)
    requires ay >= 1 && x1 <= x2 && (x1 >= 0 || x2 < 0)
    ensures Ratio(ay, x1) <= Ratio(ay, x2)
  {
    hide TruncDiv;
    var d := ay * (x2 - x1);
    assert d >= 0;
    if x1 >= 0 {
      var p, q, u, v := x1 - ay, x1 + ay, x2 - ay, x2 + ay;
      assert u * q - p * v == 2 * d;
      CrossProducts(p, q, u, v, d);
      TruncMonotone(p * 16384, q, u * 16384, v);
    } else {
      var p, q, u, v := x1 + ay, ay - x1, x2 + ay, ay - x2;
      assert u * q - p * v == 2 * d;
      CrossProducts(p, q, u, v, d);
      TruncMonotone(p * 16384, q, u * 16384, v);
    }
  }

  lemma RatioMovesWithY(a1: int, a2: int, x: int)
    requires 1 <= a1 <= a2
    ensures x >= 0 ==> Ratio(a1, x) >= Ratio(a2, x)
    ensures x < 0 ==> Ratio(a1, x) <= Ratio(a2, x)
  {
    hide TruncDiv;
    if x >= 0 {
      var d := x * (a2 - a1);
      assert d >= 0;
      var p, q, u, v := x - a2, x + a2, x - a1, x + a1;
      assert u * q - p * v == 2 * d;
      CrossProducts(p, q, u, v, d);
      TruncMonotone(p * 16384, q, u * 16384, v);
    } else {
      var d := -x * (a2 - a1);
      assert d >= 0;
      var p, q, u, v := x + a1, a1 - x, x + a2, a2 - x;
      assert u * q - p * v == 2 * d;
      CrossProducts(p, q, u, v, d);
      TruncMonotone(p * 16384, q, u * 16384, v);
    }
  }

  lemma SlopeMonotone(r1: int, r2: int)
    requires r1 <= r2
    ensures Slope(r1) <= Slope(r2)
  {
  }

  /** For fixed y >= 0 the angle never increases with x, also across the seam at x = 0. */
  lemma Atan2DecreasesWithX(y: nat, x1: int, x2: int)
    requires x1 <= x2
    ensures Atan2(y, x1) >= Atan2(y, x2)
  {
    var ay := y + 1;
    MagnitudeRange(ay, x1);
    MagnitudeRange(ay, x2);
    if x1 >= 0 || x2 < 0 {
      RatioGrowsWithX(ay, x1, x2);
      SlopeMonotone(Ratio(ay, x1), Ratio(ay, x2));
    }
  }

  /** For fixed x the magnitude moves toward a right angle as |y| grows. */
  lemma Atan2MovesWithY(y1: int, y2: int, x: int)
    requires Abs(y1) <= Abs(y2)
    ensures x >= 0 ==> Abs(Atan2(y1, x)) <= Abs(Atan2(y2, x)) <= 6432
    ensures x < 0 ==> Abs(Atan2(y1, x)) >= Abs(Atan2(y2, x)) >= 6433
  {
    var a1, a2 := Abs(y1) + 1, Abs(y2) + 1;
    MagnitudeRange(a1, x);
    MagnitudeRange(a2, x);
    RatioMovesWithY(a1, a2, x);
    if x >= 0 {
      SlopeMonotone(Ratio(a2, x), Ratio(a1, x));
    } else {
      SlopeMonotone(Ratio(a1, x), Ratio(a2, x));
    }
  }

  // ------------------------------------------------------------ how good the angle is

  // A truncated quotient times the divisor is off by less than the divisor
  lemma TruncError(p: int, q: int, r: int, rq: int)
    requires q > 0 && r == TruncDiv(p, q) && rq == r * q
    ensures -q < rq - p < q
  {
    if p >= 0 {
      NonNegativeQuotient(p, q);
      FloorError(p, q, r, rq);
    } else {
      CeilIsNegFloor(p, q);
      assert -r * q == -rq;
      FloorError(-p, q, -r, -rq);
    }
  }

  lemma FloorError(p: int, q: int, c: int, cq: int)
    requires q > 0 && p >= 0 && c == p / q && cq == c * q
    ensures 0 <= p - cq < q
  {
    assert p == c * q + p % q;
  }

  // 16384 s q for the slope s of a ratio r, and r q close to 16384 n
  lemma SlopeError(r: int, q: int, n: int, s: int, rq: int, sq: int)
    requires q > 0 && s == 3216 * r / 16384 && rq == r * q && sq == s * q
    requires -q < rq - 16384 * n < q
    ensures -6 * q < 5 * (sq - 3216 * n) < q
  {
    var d := 3216 * r - 16384 * s;
    assert 0 <= d < 16384;
    var dq := d * q;
    assert dq == 3216 * rq - 16384 * sq;
    assert 0 <= dq by { MulLess(0, d, 0, q); }
    assert dq <= 16383 * q by { MulLess(d, 16383, q, q); }
  }

  lemma MulLess(a: nat, b: nat, c: nat, d: nat)
    requires a <= b && c <= d
    ensures a * c <= b * d
  {
  }

  /**
   The angle is the one of the diamond through (x, |y| + 1), whose quarter turn is 6432, to
   within 1.2 units: x >= 0 has the angle 6432 ay / (x + ay), and for x < 0 the angle to the
   negative axis is 6432 ay / (ay - x).
   */
  lemma Atan2Error(y: int, x: int)
    ensures var (ay, a) := (Abs(y) + 1, Abs(Atan2(y, x)));
            && (x >= 0 ==> -(x + ay) < 5 * (a * (x + ay) - 6432 * ay) < 6 * (x + ay))
            && (x < 0 ==> -6 * (ay - x) < 5 * ((12864 - a) * (ay - x) - 6432 * ay) < ay - x)
  {
    var ay := Abs(y) + 1;
    var q, n := if x >= 0 then x + ay else ay - x, if x >= 0 then x - ay else x + ay;
    var r := TruncDiv(n * 16384, q);
    var s, rq := Slope(r), r * q;
    var sq := s * q;
    MagnitudeRange(ay, x);
    TruncError(n * 16384, q, r, rq);
    hide TruncDiv;
    SlopeError(r, q, n, s, rq, sq);
    var a := Abs(Atan2(y, x));
    assert a == (if x >= 0 then 3216 else 9648) - s;
    TimesDifference(if x >= 0 then 3216 else 9648, s, q, a, sq, a * q);
    TimesDifference(12864, a, q, 12864 - a, a * q, (12864 - a) * q);
  }

  lemma TimesDifference(c: int, s: int, q: int, a: int, sq: int, aq: int)
    requires a == c - s && sq == s * q && aq == a * q
    ensures aq == c * q - sq
  {
  }

  // a is at least lo and below hi when a q is
  lemma Between(a: int, q: int, lo: int, hi: int, aq: int)
    requires q > 0 && aq == a * q && (lo - 1) * q < aq < hi * q
    ensures lo <= a < hi
  {
    Cancel(lo - 1, a, q, (lo - 1) * q, aq);
    Cancel(a, hi, q, aq, hi * q);
  }

  // Atan2Error with its products named

  lemma ErrorRight(y: int, x: int, q: int, n: int, a: int, aq: int)
    requires x >= 0 && q == x + Abs(y) + 1 && n == 6432 * (Abs(y) + 1)
    requires a == Abs(Atan2(y, x)) && aq == a * q
    ensures -q < 5 * (aq - n) < 6 * q
  {
    Atan2Error(y, x);
    hide Atan2;
  }

  lemma ErrorLeft(y: int, x: int, q: int, n: int, b: int, bq: int)
    requires x < 0 && q == Abs(y) + 1 - x && n == 6432 * (Abs(y) + 1)
    requires b == 12864 - Abs(Atan2(y, x)) && bq == b * q
    ensures -6 * q < 5 * (bq - n) < q
  {
    Atan2Error(y, x);
    hide Atan2;
  }

  /** Far out on the axes. */
  lemma Atan2Axes(x: int)
    requires x >= 8040
    ensures Atan2(0, x) == 1 && Atan2(0, -x) == 12864
  {
    hide Atan2;
    var a, b, q := Abs(Atan2(0, x)), 12864 - Abs(Atan2(0, -x)), x + 1;
    var aq, bq := a * q, b * q;
    ErrorRight(0, x, q, 6432, a, aq);
    ErrorLeft(0, -x, q, 6432, b, bq);
    Atan2Range(0, x);
    Atan2Range(0, -x);
    Between(a, q, 1, 2, aq);
    Between(b, q, 0, 1, bq);
  }

  /** Far out on the diagonals. */
  lemma Atan2Diagonals(x: int)
    requires x >= 8040
    ensures 3216 <= Atan2(x, x) <= 3217 && 9648 <= Atan2(x, -x) <= 9649
  {
    hide Atan2;
    var a, b, q := Abs(Atan2(x, x)), 12864 - Abs(Atan2(x, -x)), 2 * x + 1;
    var aq, bq := a * q, b * q;
    ErrorRight(x, x, q, 6432 * (x + 1), a, aq);
    ErrorLeft(x, -x, q, 6432 * (x + 1), b, bq);
    Atan2Range(x, x);
    Atan2Range(x, -x);
    Between(a, q, 3216, 3218, aq);
    Between(b, q, 3215, 3217, bq);
  }

  /** Straight up. */
  lemma RightAngle(y: int)
    requires y >= 0
    ensures Atan2(y, 0) == 6432
  {
    Atan2Error(y, 0);
    MagnitudeRange(y + 1, 0);
    hide Ratio, Slope;
    Cancel(6431, Atan2(y, 0), y + 1, 6431 * (y + 1), Atan2(y, 0) * (y + 1));
  }

  /** In the first quadrant the angles of (x, y) and (y, x) make a right angle, up to 6432 / (x + y + 1) + 2.4. */
  lemma Atan2Complement(y: nat, x: nat)
    ensures var sum, q := Atan2(y, x) + Atan2(x, y), x + y + 1;
            6432 <= sum && 5 * sum * q < 5 * 6432 * (q + 1) + 12 * q
  {
    Atan2Error(y, x);
    Atan2Error(x, y);
    Atan2Range(y, x);
    Atan2Range(x, y);
    hide Atan2;
    var a, b, q := Atan2(y, x), Atan2(x, y), x + y + 1;
    SumOfProducts(a, b, q, a * q, b * q);
  }

  lemma SumOfProducts(a: int, b: int, q: int, aq: int, bq: int)
    requires q > 0 && aq == a * q && bq == b * q
    requires 5 * (aq + bq) > 5 * 6432 * (q + 1) - 2 * q && 5 * (aq + bq) < 5 * 6432 * (q + 1) + 12 * q
    ensures 6432 <= a + b && 5 * (a + b) * q < 5 * 6432 * (q + 1) + 12 * q
  {
    var s := a + b;
    assert s * q == aq + bq;
    assert 5 * (s * q) == 5 * s * q;
    Cancel(6431, s, q, 6431 * q, s * q);
  }

  /** The rounding of the division and of the shift, in numbers. */
  lemma Atan2Values()
    ensures Atan2(0, 1000) == 7 && Atan2(1000, 0) == 6432
    ensures Atan2(1000, 1000) == 3218 && Atan2(-1000, 1000) == -3218
    ensures Atan2(0, -1000) == 12858 && Atan2(1000, -1000) == 9647
    ensures Atan2(1, 1) == 4288 && Atan2(0, -400) == 12848
  {
  }
}
