/**
 The 8-bit Fletcher checksum shared by the framed protocols: for every byte c,
 a += c and then b += a, both modulo 256.
 */
module Fletcher {
  import opened CInts

  function SumA(a0: uint8, s: seq<uint8>): uint8 {
    if s == [] then a0 else ToUint8(SumA(a0, s[..|s| - 1]) + s[|s| - 1])
  }

  function SumB(a0: uint8, b0: uint8, s: seq<uint8>): uint8 {
    if s == [] then b0 else ToUint8(SumB(a0, b0, s[..|s| - 1]) + SumA(a0, s))
  }

  lemma SumStep(a0: uint8, b0: uint8, s: seq<uint8>, c: uint8)
    ensures SumA(a0, s + [c]) == ToUint8(SumA(a0, s) + c)
    ensures SumB(a0, b0, s + [c]) == ToUint8(SumB(a0, b0, s) + SumA(a0, s + [c]))
  {
    assert (s + [c])[..|s|] == s;
  }

  lemma SumNothing(a0: uint8, b0: uint8)
    ensures SumA(a0, []) == a0 && SumB(a0, b0, []) == b0
  {
  }

  // Starting after a first part
  lemma {:induction false} SumAppend(a0: uint8, b0: uint8, s: seq<uint8>, t: seq<uint8>)
    ensures SumA(a0, s + t) == SumA(SumA(a0, s), t)
    ensures SumB(a0, b0, s + t) == SumB(SumA(a0, s), SumB(a0, b0, s), t)
    decreases |t|
  {
    if t == [] {
      assert s + t == s;
    } else {
      hide SumA, SumB, ToUint8;
      var front, c := t[..|t| - 1], t[|t| - 1];
      var u := s + front;
      SumAppend(a0, b0, s, front);
      SumStep(a0, b0, u, c);
      SumStep(SumA(a0, s), SumB(a0, b0, s), front, c);
      MoveLast(s, t, front, c);
    }
  }

  lemma MoveLast(s: seq<uint8>, t: seq<uint8>, front: seq<uint8>, c: uint8)
    requires t != [] && front == t[..|t| - 1] && c == t[|t| - 1]
    ensures t == front + [c] && s + t == (s + front) + [c]
  {
  }

  // ------------------------------------------------------------ closed forms

  function Total(s: seq<uint8>): nat {
    if s == [] then 0 else Total(s[..|s| - 1]) + s[|s| - 1]
  }

  /** Every byte weighted by its distance to the end. */
  function Weighted(s: seq<uint8>): nat {
    if s == [] then 0 else Weighted(s[..|s| - 1]) + Total(s)
  }

  lemma ModAdd(x: int, y: int)
    ensures ToUint8(ToUint8(x) + y) == ToUint8(x + y)
    ensures ToUint8(ToUint8(x) + ToUint8(y)) == ToUint8(x + y)
  {
    var i, j := x / 256, y / 256;
    assert x == ToUint8(x) + 256 * i && y == ToUint8(y) + 256 * j;
    hide ToUint8;
    ModAdd256(ToUint8(x) + y, i);
    ModAdd256(ToUint8(x) + ToUint8(y), i + j);
  }

  function Times(n: nat, a: uint8): nat {
    n * a
  }

  lemma TimesStep(n: nat, a: uint8)
    ensures Times(0, a) == 0 && Times(n + 1, a) == Times(n, a) + a
  {
  }

  lemma {:induction false} ClosedA(a0: uint8, s: seq<uint8>)
    ensures SumA(a0, s) == ToUint8(a0 + Total(s))
  {
    if s == [] {
      Small(a0);
    } else {
      hide ToUint8;
      var t, c := s[..|s| - 1], s[|s| - 1];
      ClosedA(a0, t);
      ModAdd(a0 + Total(t), c);
    }
  }

  lemma {:induction false} ClosedB(a0: uint8, b0: uint8, s: seq<uint8>)
    ensures SumB(a0, b0, s) == ToUint8(b0 + Times(|s|, a0) + Weighted(s))
  {
    hide ToUint8, Times, SumA, SumB, Total, Weighted;
    TimesStep(if s == [] then 0 else |s| - 1, a0);
    if s == [] {
      SumNothing(a0, b0);
      Small(b0);
      WeightedNothing();
    } else {
      var t := s[..|s| - 1];
      ClosedB(a0, b0, t);
      ClosedA(a0, s);
      SecondSumLast(a0, b0, s);
      var x, y := b0 + Times(|t|, a0) + Weighted(t), a0 + Total(s);
      ModAdd(x, y);
      assert x + y == b0 + Times(|s|, a0) + Weighted(s);
    }
  }

  lemma WeightedNothing()
    ensures Weighted([]) == 0
  {
  }

  lemma SecondSumLast(a0: uint8, b0: uint8, s: seq<uint8>)
    requires s != []
    ensures SumB(a0, b0, s) == ToUint8(SumB(a0, b0, s[..|s| - 1]) + SumA(a0, s))
    ensures Weighted(s) == Weighted(s[..|s| - 1]) + Total(s)
  {
    hide SumA, Total, ToUint8;
  }

  /** The sums are an unweighted and a position-weighted sum modulo 256. */
  lemma ClosedForms(a0: uint8, b0: uint8, s: seq<uint8>)
    ensures SumA(a0, s) == ToUint8(a0 + Total(s))
    ensures SumB(a0, b0, s) == ToUint8(b0 + |s| * a0 + Weighted(s))
  {
    hide ToUint8, SumA, SumB, Total, Weighted;
    ClosedA(a0, s);
    ClosedB(a0, b0, s);
  }

  lemma Small(a: uint8)
    ensures ToUint8(a) == a
  {
  }

  // Changing byte i by d changes the total by d and the weighted sum by d times its weight
  lemma {:induction false} ChangeOne(s: seq<uint8>, i: nat, v: uint8)
    requires i < |s|
    ensures Total(s[i := v]) == Total(s) + (v - s[i])
    ensures Weighted(s[i := v]) == Weighted(s) + (|s| - i) * (v - s[i])
    decreases |s|
  {
    var n := |s| - 1;
    var front, s' := s[..n], s[i := v];
    if i == n {
      assert s'[..n] == front;
    } else {
      ChangeOne(front, i, v);
      assert s'[..n] == front[i := v] && s'[n] == s[n] && front[i] == s[i];
      OneMore(n - i, v - s[i], (n - i) * (v - front[i]));
    }
  }

  lemma OneMore(k: int, d: int, kd: int)
    requires kd == k * d
    ensures (k + 1) * d == kd + d
  {
  }

  lemma EqualModulo(x: int, y: int)
    ensures ToUint8(x) == ToUint8(y) <==> ToUint8(x - y) == 0
  {
  }

  /** Exactly when two changed bytes go unnoticed. */
  lemma TwoChangesUnnoticed(a0: uint8, b0: uint8, s: seq<uint8>, i: nat, j: nat, v: uint8, w: uint8)
    requires i < j < |s|
    ensures var t := s[i := v][j := w];
            SumA(a0, t) == SumA(a0, s) && SumB(a0, b0, t) == SumB(a0, b0, s) <==>
            ToUint8((v - s[i]) + (w - s[j])) == 0 && ToUint8((j - i) * (v - s[i])) == 0
  {
    hide ToUint8, Total, Weighted, SumA, SumB;
    var t, d, e := s[i := v][j := w], v - s[i], w - s[j];
    var n := |s|;
    ChangeOne(s, i, v);
    ChangeOne(s[i := v], j, w);
    ClosedForms(a0, b0, s);
    ClosedForms(a0, b0, t);
    EqualModulo(a0 + Total(t), a0 + Total(s));
    EqualModulo(b0 + n * a0 + Weighted(t), b0 + n * a0 + Weighted(s));
    WeightDifference(n - i, n - j, d, e, (n - i) * (v - s[i]), (n - j) * (w - s[j]),
                     (j - i) * (v - s[i]));
  }

  lemma WeightDifference(p: int, q: int, d: int, e: int, pd: int, qe: int, diff: int)
    requires pd == p * d && qe == q * e && diff == (p - q) * d
    ensures ToUint8(d + e) == 0 ==> (ToUint8(pd + qe) == 0 <==> ToUint8(diff) == 0)
  {
    if ToUint8(d + e) == 0 {
      var k := (d + e) / 256;
      var m := q * k;
      assert qe == q * (256 * k - d) == 256 * m - q * d;
      assert pd + qe == diff + 256 * m;
      ModAdd256(diff, m);
    }
  }

  lemma ModAdd256(x: int, k: int)
    ensures ToUint8(x + 256 * k) == ToUint8(x)
  {
  }

  lemma NotZeroModulo(v: uint8, w: uint8)
    requires v != w
    ensures ToUint8(v - w) != 0
  {
  }

  // Starting the sums at c in both is summing c first
  lemma StartedWith(c: uint8, s: seq<uint8>)
    ensures SumA(c, s) == ToUint8(Total([c] + s)) && SumB(c, c, s) == ToUint8(Weighted([c] + s))
  {
    hide SumA, SumB, Total, Weighted, ToUint8;
    SumAppend(0, 0, [c], s);
    SumStep(0, 0, [], c);
    SumNothing(0, 0);
    Small(c);
    assert [] + [c] == [c];
    ClosedForms(0, 0, [c] + s);
  }

  /** One changed byte is always noticed, by the first sum. */
  lemma OneChangeNoticed(a0: uint8, s: seq<uint8>, i: nat, v: uint8)
    requires i < |s| && v != s[i]
    ensures SumA(a0, s[i := v]) != SumA(a0, s)
  {
    hide ToUint8, Total, Weighted, SumA;
    ChangeOne(s, i, v);
    ClosedForms(a0, a0, s);
    ClosedForms(a0, a0, s[i := v]);
    EqualModulo(a0 + Total(s[i := v]), a0 + Total(s));
    NotZeroModulo(v, s[i]);
  }

  lemma OddTimes(k: int, d: int, kd: int)
    requires k % 2 == 1 && kd == k * d && ToUint8(kd) == 0
    ensures ToUint8(d) == 0
  {
    var m := kd / 256;
    assert kd == 256 * m;
    hide ToUint8;
    var d1, p1 := HalveFactor(k, d, kd, 128 * m);
    var d2, p2 := HalveFactor(k, d1, p1, 64 * m);
    var d3, p3 := HalveFactor(k, d2, p2, 32 * m);
    var d4, p4 := HalveFactor(k, d3, p3, 16 * m);
    var d5, p5 := HalveFactor(k, d4, p4, 8 * m);
    var d6, p6 := HalveFactor(k, d5, p5, 4 * m);
    var d7, p7 := HalveFactor(k, d6, p6, 2 * m);
    var d8, p8 := HalveFactor(k, d7, p7, m);
    MultipleOf256(d, d8);
  }

  lemma MultipleOf256(d: int, k: int)
    requires d == 256 * k
    ensures ToUint8(d) == 0
  {
  }

  // An odd factor leaves the evenness of a product kd to the other factor
  lemma HalveFactor(k: int, d: int, kd: int, m: int) returns (h: int, kh: int)
    requires k % 2 == 1 && kd == k * d && kd == 2 * m
    ensures d == 2 * h && kh == k * h == m
  {
    var j := k / 2;
    OddProduct(j, k, d, kd, j * d);
    h := d / 2;
    kh := k * h;
    EvenProduct(k, h, d, kd, kh);
  }

  lemma OddProduct(j: int, k: int, d: int, kd: int, jd: int)
    requires k == 2 * j + 1 && kd == k * d && jd == j * d
    ensures kd == 2 * jd + d
  {
  }

  lemma EvenProduct(k: int, h: int, d: int, kd: int, kh: int)
    requires d == 2 * h && kd == k * d && kh == k * h
    ensures kd == 2 * kh
  {
  }

  /** Two changed bytes at odd distance are always noticed. */
  lemma OddDistanceNoticed(a0: uint8, b0: uint8, s: seq<uint8>, i: nat, j: nat, v: uint8, w: uint8)
    requires i < j < |s| && (j - i) % 2 == 1 && v != s[i]
    ensures var t := s[i := v][j := w];
            SumA(a0, t) != SumA(a0, s) || SumB(a0, b0, t) != SumB(a0, b0, s)
  {
    TwoChangesUnnoticed(a0, b0, s, i, j, v, w);
    NotZeroModulo(v, s[i]);
    if ToUint8((j - i) * (v - s[i])) == 0 {
      OddTimes(j - i, v - s[i], (j - i) * (v - s[i]));
    }
  }

  /** At even distance some are not: 128 added to two bytes two places apart. */
  lemma EvenDistanceUnnoticed(a0: uint8, b0: uint8)
    ensures var s := [0, 0, 0]; var t := s[0 := 128][2 := 128];
            SumA(a0, t) == SumA(a0, s) && SumB(a0, b0, t) == SumB(a0, b0, s)
  {
    TwoChangesUnnoticed(a0, b0, [0, 0, 0], 0, 2, 128, 128);
  }
}
