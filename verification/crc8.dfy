/**
 The 8-bit CRC that protects SPI link transfers (fms_spi_link.c).

 Polynomial x^8 + x^5 + x^4 + 1, initial value 0, most significant bit first.  The last
 byte of a buffer carries the CRC of the bytes before it.
 */
module Crc8 {
  const POLYNOMIAL: bv8 := 0x31
  const TOPBIT: bv8 := 0x80

  /** Addition of polynomials over the two-element field. */
  function Add(a: bv8, b: bv8): bv8 {
    a ^ b
  }

  /** The remainder after one more bit. */
  function ShiftBit(r: bv8): bv8 {
    if r & TOPBIT != 0 then (r << 1) ^ POLYNOMIAL else r << 1
  }

  function ShiftBits(r: bv8, n: nat): bv8 {
    if n == 0 then r else ShiftBit(ShiftBits(r, n - 1))
  }

  /** The remainder after one more byte has been added to it. */
  function ShiftByte(r: bv8): bv8 {
    ShiftBit(ShiftBit(ShiftBit(ShiftBit(ShiftBit(ShiftBit(ShiftBit(ShiftBit(r))))))))
  }

  function Crc(s: seq<bv8>): bv8 {
    if s == [] then 0 else ShiftByte(Add(Crc(s[..|s| - 1]), s[|s| - 1]))
  }

  function Xor(a: seq<bv8>, b: seq<bv8>): (c: seq<bv8>)
    requires |a| == |b|
    ensures |c| == |a|
  {
    seq(|a|, i requires 0 <= i < |a| => Add(a[i], b[i]))
  }

  // ------------------------------------------------------------ the computation

  lemma EightShifts(r: bv8)
    ensures ShiftBits(r, 8) == ShiftByte(r)
  {
    var r1 := ShiftBit(r);
    assert ShiftBits(r, 1) == r1;
    var r2 := ShiftBit(r1);
    assert ShiftBits(r, 2) == r2;
    var r3 := ShiftBit(r2);
    assert ShiftBits(r, 3) == r3;
    var r4 := ShiftBit(r3);
    assert ShiftBits(r, 4) == r4;
    var r5 := ShiftBit(r4);
    assert ShiftBits(r, 5) == r5;
    var r6 := ShiftBit(r5);
    assert ShiftBits(r, 6) == r6;
    var r7 := ShiftBit(r6);
    assert ShiftBits(r, 7) == r7;
  }

  method CalcBlockCrc8(buf: array<bv8>, len: nat) returns (remainder: bv8)
    requires len <= buf.Length
    ensures remainder == Crc(buf[..len])
  {
    remainder := 0;
    var byte := 0;
    while byte < len
      invariant byte <= len
      invariant remainder == Crc(buf[..byte])
    {
      remainder := remainder ^ buf[byte];
      ghost var r0 := remainder;
      var bit := 8;
      while bit > 0
        invariant 0 <= bit <= 8
        invariant remainder == ShiftBits(r0, 8 - bit)
      {
        if remainder & TOPBIT != 0 {
          remainder := (remainder << 1) ^ POLYNOMIAL;
        } else {
          remainder := remainder << 1;
        }
        bit := bit - 1;
      }
      EightShifts(r0);
      assert buf[..byte + 1][..byte] == buf[..byte];
      byte := byte + 1;
    }
  }

  // ------------------------------------------------------------ linearity

  lemma XorInterchange(a: bv8, b: bv8, c: bv8, d: bv8)
    ensures (a ^ b) ^ (c ^ d) == (a ^ c) ^ (b ^ d)
  {
  }

  lemma AddInterchange(a: bv8, b: bv8, c: bv8, d: bv8)
    ensures Add(Add(a, b), Add(c, d)) == Add(Add(a, c), Add(b, d))
  {
    calc {
      Add(Add(a, b), Add(c, d));
      Add(a ^ b, c ^ d);
      (a ^ b) ^ (c ^ d);
      { XorInterchange(a, b, c, d); }
      (a ^ c) ^ (b ^ d);
      Add(a ^ c, b ^ d);
      Add(Add(a, c), Add(b, d));
    }
  }

  lemma AddIsZero(a: bv8, b: bv8)
    ensures Add(a, b) == 0 <==> a == b
  {
    if a ^ b == 0 {
      assert b == (a ^ b) ^ a;
    }
  }

  // The two parts of a shift: what moves left, and what the lost top bit adds

  function Carry(r: bv8): bv8 {
    if r & TOPBIT != 0 then POLYNOMIAL else 0
  }

  lemma ShiftBitParts(r: bv8)
    ensures ShiftBit(r) == Add(r << 1, Carry(r))
  {
  }

  lemma LeftLinear(a: bv8, b: bv8)
    ensures Add(a, b) << 1 == Add(a << 1, b << 1)
  {
    assert (a ^ b) << 1 == (a << 1) ^ (b << 1);
  }

  lemma CarryLinear(a: bv8, b: bv8)
    ensures Carry(Add(a, b)) == Add(Carry(a), Carry(b))
  {
    assert (a ^ b) & 0x80 == (a & 0x80) ^ (b & 0x80);
    assert a & 0x80 == 0 || a & 0x80 == 0x80;
    assert b & 0x80 == 0 || b & 0x80 == 0x80;
  }

  lemma ShiftBitLinear(a: bv8, b: bv8)
    ensures ShiftBit(Add(a, b)) == Add(ShiftBit(a), ShiftBit(b))
  {
    hide ShiftBit, Add, Carry;
    ShiftBitParts(a);
    ShiftBitParts(b);
    ShiftBitParts(Add(a, b));
    LeftLinear(a, b);
    CarryLinear(a, b);
    AddInterchange(a << 1, b << 1, Carry(a), Carry(b));
  }

  lemma ShiftByteLinear(a: bv8, b: bv8)
    ensures ShiftByte(Add(a, b)) == Add(ShiftByte(a), ShiftByte(b))
  {
    hide ShiftBit, Add;
    var a1, b1 := ShiftBit(a), ShiftBit(b);
    ShiftBitLinear(a, b);
    var a2, b2 := ShiftBit(a1), ShiftBit(b1);
    ShiftBitLinear(a1, b1);
    var a3, b3 := ShiftBit(a2), ShiftBit(b2);
    ShiftBitLinear(a2, b2);
    var a4, b4 := ShiftBit(a3), ShiftBit(b3);
    ShiftBitLinear(a3, b3);
    var a5, b5 := ShiftBit(a4), ShiftBit(b4);
    ShiftBitLinear(a4, b4);
    var a6, b6 := ShiftBit(a5), ShiftBit(b5);
    ShiftBitLinear(a5, b5);
    var a7, b7 := ShiftBit(a6), ShiftBit(b6);
    ShiftBitLinear(a6, b6);
    ShiftBitLinear(a7, b7);
  }

  lemma ShiftBitZero(a: bv8)
    ensures ShiftBit(a) == 0 <==> a == 0
  {
  }

  lemma ShiftByteZero(a: bv8)
    ensures ShiftByte(a) == 0 <==> a == 0
  {
    hide ShiftBit;
    var a1 := ShiftBit(a);
    ShiftBitZero(a);
    var a2 := ShiftBit(a1);
    ShiftBitZero(a1);
    var a3 := ShiftBit(a2);
    ShiftBitZero(a2);
    var a4 := ShiftBit(a3);
    ShiftBitZero(a3);
    var a5 := ShiftBit(a4);
    ShiftBitZero(a4);
    var a6 := ShiftBit(a5);
    ShiftBitZero(a5);
    var a7 := ShiftBit(a6);
    ShiftBitZero(a6);
    ShiftBitZero(a7);
  }

  /** The CRC is linear over XOR. */
  lemma {:induction false} CrcLinear(a: seq<bv8>, b: seq<bv8>)
    requires |a| == |b|
    ensures Crc(Xor(a, b)) == Add(Crc(a), Crc(b))
  {
    if a != [] {
      hide ShiftByte, Add;
      var n := |a| - 1;
      CrcLinear(a[..n], b[..n]);
      assert Xor(a, b)[..n] == Xor(a[..n], b[..n]);
      AddInterchange(Crc(a[..n]), Crc(b[..n]), a[n], b[n]);
      ShiftByteLinear(Add(Crc(a[..n]), a[n]), Add(Crc(b[..n]), b[n]));
    }
  }

  /** The receiver's comparison succeeds exactly when the CRC over all bytes is zero. */
  lemma CheckIffZero(s: seq<bv8>)
    requires s != []
    ensures Crc(s[..|s| - 1]) == s[|s| - 1] <==> Crc(s) == 0
  {
    hide ShiftByte, Add;
    var c, d := Crc(s[..|s| - 1]), s[|s| - 1];
    ShiftByteZero(Add(c, d));
    AddIsZero(c, d);
  }

  // ------------------------------------------------------------ the remainder

  /** The product of a byte, as a polynomial, and x^8 + x^5 + x^4 + 1. */
  function TimesG(w: bv8): bv16 {
    var v := w as bv16;
    (v << 8) ^ (v << 5) ^ (v << 4) ^ v
  }

  function High(v: bv16): bv8 {
    (v >> 8) as bv8
  }

  function Low(v: bv16): bv8 {
    (v & 0xFF) as bv8
  }

  // What byte i of q puts at place i, and what the byte before carries to there

  function Own(q: seq<bv8>, i: nat): bv8 {
    if i < |q| then High(TimesG(q[i])) else 0
  }

  function Carried(q: seq<bv8>, i: nat): bv8
    requires i <= |q|
  {
    if i > 0 then Low(TimesG(q[i - 1])) else 0
  }

  /** c is q times x^8 + x^5 + x^4 + 1: every byte of q adds its product at its place. */
  predicate IsProduct(c: seq<bv8>, q: seq<bv8>) {
    |c| == |q| + 1 && forall i :: 0 <= i < |c| ==> c[i] == Add(Own(q, i), Carried(q, i))
  }

  ghost predicate IsMultiple(c: seq<bv8>) {
    exists q :: IsProduct(c, q)
  }

  lemma HighOfProduct(w: bv8)
    ensures High(TimesG(w)) == w ^ (w >> 3) ^ (w >> 4)
  {
  }

  lemma LowOfProduct(w: bv8)
    ensures Low(TimesG(w)) == (w << 5) ^ (w << 4) ^ w
  {
  }

  // What a byte carries into the next one is its remainder
  lemma ShiftProduct(w: bv8)
    ensures ShiftByte(High(TimesG(w))) == Low(TimesG(w))
  {
    HighOfProduct(w);
    LowOfProduct(w);
    hide TimesG, High, Low;
    ShiftQuotient(w);
  }

  lemma ShiftQuotient(w: bv8)
    ensures ShiftByte(w ^ (w >> 3) ^ (w >> 4)) == (w << 5) ^ (w << 4) ^ w
  {
  }

  // The byte whose product starts with x
  function Quotient(x: bv8): bv8 {
    x ^ (x >> 3) ^ (x >> 4) ^ (x >> 6)
  }

  lemma HighOfQuotient(x: bv8)
    ensures High(TimesG(Quotient(x))) == x
  {
    var w := Quotient(x);
    HighOfProduct(w);
    hide TimesG, High;
    assert w ^ (w >> 3) ^ (w >> 4) == x;
  }

  lemma AddAgain(a: bv8, b: bv8)
    ensures Add(a, Add(b, a)) == b && Add(Add(a, b), a) == b
  {
  }

  // The CRC of a part of a product is what its last product carries on
  lemma {:induction false} CrcOfProduct(c: seq<bv8>, q: seq<bv8>, i: nat)
    requires IsProduct(c, q) && i <= |q|
    ensures Crc(c[..i]) == Carried(q, i)
  {
    hide ShiftByte, Add, High, Low, TimesG;
    if i > 0 {
      var a, b := Crc(c[..i - 1]), Own(q, i - 1);
      CrcOfProduct(c, q, i - 1);
      assert c[..i][..i - 1] == c[..i - 1];
      assert Crc(c[..i]) == ShiftByte(Add(a, c[i - 1]));
      assert c[i - 1] == Add(b, a);
      AddAgain(a, b);
      ShiftProduct(q[i - 1]);
    }
  }

  function Quotients(s: seq<bv8>): (q: seq<bv8>)
    ensures |q| == |s|
  {
    seq(|s|, i requires 0 <= i < |s| => Quotient(Add(Crc(s[..i]), s[i])))
  }

  lemma QuotientAt(s: seq<bv8>, i: nat)
    requires i < |s|
    ensures Own(Quotients(s), i) == Add(Crc(s[..i]), s[i])
    ensures Carried(Quotients(s), i + 1) == Crc(s[..i + 1])
  {
    hide ShiftByte, Add, High, Low, TimesG, Quotient;
    var x := Add(Crc(s[..i]), s[i]);
    HighOfQuotient(x);
    ShiftProduct(Quotient(x));
    assert s[..i + 1][..i] == s[..i];
  }

  /** With its CRC behind it, a block is the product of its quotients. */
  lemma QuotientsDivide(s: seq<bv8>)
    ensures IsProduct(s + [Crc(s)], Quotients(s))
  {
    hide ShiftByte, Add, High, Low, TimesG, Quotients, Crc, Own, Carried;
    var c, q := s + [Crc(s)], Quotients(s);
    forall i | 0 <= i < |c| ensures c[i] == Add(Own(q, i), Carried(q, i)) {
      CarriedIsCrc(s, i);
      if i < |s| {
        QuotientAt(s, i);
        AddAgain(Crc(s[..i]), c[i]);
      } else {
        AddZero(Crc(s));
        OwnBehind(q);
        assert s[..|s|] == s;
      }
    }
  }

  lemma CarriedIsCrc(s: seq<bv8>, i: nat)
    requires i <= |s|
    ensures Carried(Quotients(s), i) == Crc(s[..i])
  {
    hide ShiftByte, Add, High, Low, TimesG, Quotients;
    if i > 0 { QuotientAt(s, i - 1); }
  }

  lemma OwnBehind(q: seq<bv8>)
    ensures Own(q, |q|) == 0
  {
  }

  /**
   The CRC is the remainder modulo x^8 + x^5 + x^4 + 1: it is the only byte that makes a
   block a multiple of the polynomial when put behind it.
   */
  lemma CrcIsRemainder(s: seq<bv8>, r: bv8)
    ensures IsMultiple(s + [r]) <==> r == Crc(s)
  {
    hide Crc, Add, Own, Carried;
    QuotientsDivide(s);
    var c := s + [r];
    assert c[..|s|] == s;
    if IsMultiple(c) {
      var q :| IsProduct(c, q);
      CrcOfProduct(c, q, |s|);
      OwnBehind(q);
      AddZero(Crc(s));
      assert c[|s|] == r;
    }
  }

  // ------------------------------------------------------------ error patterns

  // The j-th bit of a byte, counted from the most significant one
  function BitMask(j: nat): bv8
    requires j < 8
  {
    if j == 0 then 0x80 else if j == 1 then 0x40 else if j == 2 then 0x20 else if j == 3 then 0x10
    else if j == 4 then 0x08 else if j == 5 then 0x04 else if j == 6 then 0x02 else 0x01
  }

  // The first k bits of a byte
  function FirstBits(k: nat): bv8
    requires k < 8
  {
    if k == 0 then 0x00 else if k == 1 then 0x80 else if k == 2 then 0xC0 else if k == 3 then 0xE0
    else if k == 4 then 0xF0 else if k == 5 then 0xF8 else if k == 6 then 0xFC else 0xFE
  }

  // All bits of a byte but the first k
  function LastBits(k: nat): bv8
    requires k < 8
  {
    if k == 0 then 0xFF else if k == 1 then 0x7F else if k == 2 then 0x3F else if k == 3 then 0x1F
    else if k == 4 then 0x0F else if k == 5 then 0x07 else if k == 6 then 0x03 else 0x01
  }

  predicate BitAt(s: seq<bv8>, p: nat)
    requires p < 8 * |s|
  {
    s[p / 8] & BitMask(p % 8) != 0
  }

  // Every set bit lies among 8 consecutive ones, the first of which is bit start
  predicate Burst(e: seq<bv8>, start: nat) {
    forall p :: 0 <= p < 8 * |e| && BitAt(e, p) ==> start <= p < start + 8
  }

  predicate NonZero(e: seq<bv8>) {
    exists i :: 0 <= i < |e| && e[i] != 0
  }

  lemma ClearBits(b: bv8, k: nat)
    requires k < 8
    ensures (forall j :: 0 <= j < k ==> b & BitMask(j) == 0) ==> b & FirstBits(k) == 0
    ensures (forall j :: k <= j < 8 ==> b & BitMask(j) == 0) ==> b & LastBits(k) == 0
  {
    hide BitMask;
    var b0, b1, b2, b3 := b & BitMask(0), b & BitMask(1), b & BitMask(2), b & BitMask(3);
    var b4, b5, b6, b7 := b & BitMask(4), b & BitMask(5), b & BitMask(6), b & BitMask(7);
    Masks();
  }

  lemma Masks()
    ensures BitMask(0) == 0x80 && BitMask(1) == 0x40 && BitMask(2) == 0x20 && BitMask(3) == 0x10
    ensures BitMask(4) == 0x08 && BitMask(5) == 0x04 && BitMask(6) == 0x02 && BitMask(7) == 0x01
  {
  }

  /** No nonzero multiple of the polynomial fits in a window of 8 bits across two bytes. */
  lemma WindowDetected(x: bv8, y: bv8, k: nat)
    requires k < 8 && x & FirstBits(k) == 0 && y & LastBits(k) == 0
    requires ShiftByte(x) == y
    ensures x == 0 && y == 0
  {
    var a1 := ShiftBit(x);
    var a2 := ShiftBit(a1);
    var a3 := ShiftBit(a2);
    var a4 := ShiftBit(a3);
    var a5 := ShiftBit(a4);
    var a6 := ShiftBit(a5);
    var a7 := ShiftBit(a6);
    assert y == ShiftBit(a7);
    assert x == 0;
  }

  lemma {:induction false} CrcTail(s: seq<bv8>, n: nat)
    requires n <= |s| && forall i :: n <= i < |s| ==> s[i] == 0
    ensures Crc(s) == 0 <==> Crc(s[..n]) == 0
    decreases |s|
  {
    if n == |s| {
      assert s[..n] == s;
    } else {
      hide ShiftByte, Add;
      var t := s[..|s| - 1];
      CrcTail(t, n);
      assert t[..n] == s[..n];
      ShiftByteZero(Add(Crc(t), 0));
      AddIsZero(Crc(t), 0);
    }
  }

  // The CRC of an error in bytes i and i + 1 only
  lemma CrcOfWindow(e: seq<bv8>, i: nat)
    requires i < |e|
    requires forall j :: 0 <= j < |e| && j != i && j != i + 1 ==> e[j] == 0
    ensures Crc(e) == 0 <==>
            ShiftByte(e[i]) == if i + 1 < |e| then e[i + 1] else 0
  {
    hide ShiftByte, Add;
    var x, y := e[i], if i + 1 < |e| then e[i + 1] else 0;
    assert Crc(e[..i]) == 0 by { CrcTail(e[..i], 0); }
    assert e[..i + 1][..i] == e[..i];
    AddZero(x);
    assert Crc(e[..i + 1]) == ShiftByte(x);
    if i + 1 < |e| {
      assert e[..i + 2][..i + 1] == e[..i + 1];
      assert Crc(e[..i + 2]) == ShiftByte(Add(ShiftByte(x), y));
      ShiftByteZero(Add(ShiftByte(x), y));
      AddIsZero(ShiftByte(x), y);
      CrcTail(e, i + 2);
    } else {
      assert e[..i + 1] == e;
    }
  }

  lemma AddZero(a: bv8)
    ensures Add(0, a) == a
  {
  }

  lemma ClearOutside(e: seq<bv8>, start: nat, j: nat, b: nat)
    requires Burst(e, start) && j < |e| && b < 8
    requires 8 * j + b < start || start + 8 <= 8 * j + b
    ensures e[j] & BitMask(b) == 0
  {
    hide BitMask;
    var p := 8 * j + b;
    assert p / 8 == j && p % 8 == b;
    assert !BitAt(e, p);
  }

  lemma AllClear(b: bv8)
    requires forall j :: 0 <= j < 8 ==> b & BitMask(j) == 0
    ensures b == 0
  {
    ClearBits(b, 0);
    assert b & 0xFF == b;
  }

  lemma BurstOtherByte(e: seq<bv8>, start: nat, j: nat)
    requires Burst(e, start) && j < |e| && j != start / 8 && j != start / 8 + 1
    ensures e[j] == 0
  {
    hide BitMask, Burst;
    forall b | 0 <= b < 8 ensures e[j] & BitMask(b) == 0 {
      ClearOutside(e, start, j, b);
    }
    AllClear(e[j]);
  }

  lemma BurstFirstByte(e: seq<bv8>, start: nat)
    requires Burst(e, start) && start / 8 < |e|
    ensures e[start / 8] & FirstBits(start % 8) == 0
  {
    hide BitMask, FirstBits, Burst;
    var i, k := start / 8, start % 8;
    forall b | 0 <= b < k ensures e[i] & BitMask(b) == 0 {
      ClearOutside(e, start, i, b);
    }
    ClearBits(e[i], k);
  }

  lemma BurstSecondByte(e: seq<bv8>, start: nat)
    requires Burst(e, start) && start / 8 + 1 < |e|
    ensures e[start / 8 + 1] & LastBits(start % 8) == 0
  {
    hide BitMask, LastBits, Burst;
    var i, k := start / 8 + 1, start % 8;
    forall b | k <= b < 8 ensures e[i] & BitMask(b) == 0 {
      ClearOutside(e, start, i, b);
    }
    ClearBits(e[i], k);
  }

  lemma FirstOfZero(k: nat)
    requires k < 8
    ensures 0 & LastBits(k) == 0
  {
  }

  /** Every nonzero error confined to 8 consecutive bits changes the CRC. */
  lemma BurstDetected(m: seq<bv8>, e: seq<bv8>, start: nat)
    requires |m| == |e| && Crc(m) == 0
    requires NonZero(e) && Burst(e, start)
    ensures Crc(Xor(m, e)) != 0
  {
    hide ShiftByte, Add, FirstBits, LastBits, Burst;
    var i, k := start / 8, start % 8;
    forall j | 0 <= j < |e| && j != i && j != i + 1 ensures e[j] == 0 {
      BurstOtherByte(e, start, j);
    }
    BurstFirstByte(e, start);
    if i + 1 < |e| { BurstSecondByte(e, start); } else { FirstOfZero(k); }
    CrcLinear(m, e);
    AddZero(Crc(e));
    CrcOfWindow(e, i);
    if Crc(e) == 0 {
      WindowDetected(e[i], if i + 1 < |e| then e[i + 1] else 0, k);
    }
  }

  // ------------------------------------------------------------ parity

  function One(b: bv8, mask: bv8): nat {
    if b & mask != 0 then 1 else 0
  }

  /** The number of set bits of a byte, and of a buffer. */
  function Ones(b: bv8): nat {
    One(b, 0x80) + One(b, 0x40) + One(b, 0x20) + One(b, 0x10) +
    One(b, 0x08) + One(b, 0x04) + One(b, 0x02) + One(b, 0x01)
  }

  function Weight(s: seq<bv8>): nat {
    if s == [] then 0 else Weight(s[..|s| - 1]) + Ones(s[|s| - 1])
  }

  function Common(a: bv8, b: bv8): bv8 {
    a & b
  }

  // Adding loses each pair of bits that meet
  lemma OneAdd(a: bv8, b: bv8, m: bv8)
    requires m == 0x80 || m == 0x40 || m == 0x20 || m == 0x10 ||
             m == 0x08 || m == 0x04 || m == 0x02 || m == 0x01
    ensures One(Add(a, b), m) + 2 * One(Common(a, b), m) == One(a, m) + One(b, m)
  {
    assert (a ^ b) & m == (a & m) ^ (b & m);
    assert (a & b) & m == (a & m) & (b & m);
    assert (a & m == 0 || a & m == m) && (b & m == 0 || b & m == m);
  }

  lemma OnesAdd(a: bv8, b: bv8)
    ensures Ones(Add(a, b)) + 2 * Ones(Common(a, b)) == Ones(a) + Ones(b)
  {
    hide Add, Common, One;
    OneAdd(a, b, 0x80);
    OneAdd(a, b, 0x40);
    OneAdd(a, b, 0x20);
    OneAdd(a, b, 0x10);
    OneAdd(a, b, 0x08);
    OneAdd(a, b, 0x04);
    OneAdd(a, b, 0x02);
    OneAdd(a, b, 0x01);
  }

  lemma OnesLeft(r: bv8)
    ensures Ones(r << 1) + (if r & TOPBIT != 0 then 1 else 0) == Ones(r)
  {
  }

  lemma OnesCarry(r: bv8)
    ensures Ones(Carry(r)) == if r & TOPBIT != 0 then 3 else 0
  {
  }

  // The polynomial has an even number of terms, so shifting keeps the parity
  lemma OnesShiftBit(r: bv8)
    ensures Ones(ShiftBit(r)) % 2 == Ones(r) % 2
  {
    hide ShiftBit, Add, Carry, Ones, Common;
    ShiftBitParts(r);
    OnesAdd(r << 1, Carry(r));
    OnesLeft(r);
    OnesCarry(r);
  }

  lemma OnesShiftByte(r: bv8)
    ensures Ones(ShiftByte(r)) % 2 == Ones(r) % 2
  {
    hide ShiftBit, Ones;
    var r1 := ShiftBit(r);
    OnesShiftBit(r);
    var r2 := ShiftBit(r1);
    OnesShiftBit(r1);
    var r3 := ShiftBit(r2);
    OnesShiftBit(r2);
    var r4 := ShiftBit(r3);
    OnesShiftBit(r3);
    var r5 := ShiftBit(r4);
    OnesShiftBit(r4);
    var r6 := ShiftBit(r5);
    OnesShiftBit(r5);
    var r7 := ShiftBit(r6);
    OnesShiftBit(r6);
    OnesShiftBit(r7);
  }

  lemma OnesZero()
    ensures Ones(0) == 0
  {
  }

  lemma OnesNextByte(c: bv8, d: bv8)
    ensures Ones(ShiftByte(Add(c, d))) % 2 == (Ones(c) + Ones(d)) % 2
  {
    hide ShiftByte, Add, Ones, Common;
    OnesShiftByte(Add(c, d));
    OnesAdd(c, d);
    SameParity(Ones(ShiftByte(Add(c, d))), Ones(Add(c, d)), Ones(Common(c, d)), Ones(c) + Ones(d));
  }

  lemma SameParity(x: int, y: int, z: int, w: int)
    requires x % 2 == y % 2 && y + 2 * z == w
    ensures x % 2 == w % 2
  {
  }

  lemma ParityAdd(a: nat, b: nat, c: nat)
    requires a % 2 == b % 2
    ensures (a + c) % 2 == (b + c) % 2
  {
  }

  /** The CRC has the parity of the buffer. */
  lemma {:induction false} CrcParity(s: seq<bv8>)
    ensures Ones(Crc(s)) % 2 == Weight(s) % 2
  {
    hide ShiftByte, Add, Ones;
    if s == [] {
      OnesZero();
    } else {
      var front, last := s[..|s| - 1], s[|s| - 1];
      CrcParity(front);
      OnesNextByte(Crc(front), last);
      ParityAdd(Ones(Crc(front)), Weight(front), Ones(last));
      assert Weight(s) == Weight(front) + Ones(last);
    }
  }

  /** Every error that flips an odd number of bits changes the CRC. */
  lemma OddErrorDetected(m: seq<bv8>, e: seq<bv8>)
    requires |m| == |e| && Crc(m) == 0 && Weight(e) % 2 == 1
    ensures Crc(Xor(m, e)) != 0
  {
    CrcLinear(m, e);
    AddZero(Crc(e));
    CrcParity(e);
    OnesZero();
  }
}

/** The transfer function of the SPI link. */
module SpiLinkTransfer {
  import opened CInts
  import opened Crc8

  class SpiLink {
    var msgCnt: uint32
    var crcErrCnt: uint32

    constructor ()
      ensures msgCnt == 0 && crcErrCnt == 0
    {
      msgCnt, crcErrCnt := 0, 0;
    }

    /**
     Sends bufOut with its CRC filled in.  incoming is what the transfer puts in the
     receive buffer; crcValid tells whether it passed the check.
     */
    method Send(bufOut: array<bv8>, count: nat, bufIn: array<bv8>, incoming: seq<bv8>)
      returns (crcValid: bool)
      requires 1 <= count <= bufOut.Length && count <= bufIn.Length && bufOut != bufIn
      requires |incoming| == count
      modifies this, bufOut, bufIn
      ensures bufOut[..] == old(bufOut[..])[count - 1 := Crc(old(bufOut[..count - 1]))]
      ensures Crc(bufOut[..count]) == 0
      ensures bufIn[..] == incoming + old(bufIn[count..])
      ensures crcValid <==> Crc(incoming) == 0
      ensures msgCnt == ToUint32(old(msgCnt) + 1)
      ensures crcErrCnt == if crcValid then old(crcErrCnt) else ToUint32(old(crcErrCnt) + 1)
    {
      FillCrc(bufOut, count);
      Transfer(bufIn, incoming);
      msgCnt := ToUint32(msgCnt + 1);
      assert bufIn[..count] == incoming;
      crcValid := CheckCrc(bufIn, count);
      if !crcValid {
        crcErrCnt := ToUint32(crcErrCnt + 1);
      }
    }

    method FillCrc(buf: array<bv8>, count: nat)
      requires 1 <= count <= buf.Length
      modifies buf
      ensures buf[..] == old(buf[..])[count - 1 := Crc(old(buf[..count - 1]))]
      ensures Crc(buf[..count]) == 0
    {
      var crc := CalcBlockCrc8(buf, count - 1);
      hide Crc;
      buf[count - 1] := crc;
      var s := buf[..count];
      assert s[..count - 1] == old(buf[..count - 1]);
      CheckIffZero(s);
    }

    method CheckCrc(buf: array<bv8>, count: nat) returns (valid: bool)
      requires 1 <= count <= buf.Length
      ensures valid <==> Crc(buf[..count]) == 0
    {
      hide Crc;
      var computedCrc := CalcBlockCrc8(buf, count - 1);
      var s := buf[..count];
      assert s[..count - 1] == buf[..count - 1];
      CheckIffZero(s);
      valid := computedCrc == buf[count - 1];
    }

    // Stands for the ioctl that exchanges the buffers
    method Transfer(bufIn: array<bv8>, incoming: seq<bv8>)
      requires |incoming| <= bufIn.Length
      modifies bufIn
      ensures bufIn[..] == incoming + old(bufIn[|incoming|..])
    {
      for i := 0 to |incoming|
        invariant forall j :: 0 <= j < i ==> bufIn[j] == incoming[j]
        invariant forall j :: i <= j < bufIn.Length ==> bufIn[j] == old(bufIn[j])
      {
        bufIn[i] := incoming[i];
      }
    }
  }

  /**
   What one end sends and the other end receives with error pattern e: accepted without
   error, rejected for every nonzero burst of at most 8 bits and for every odd number of
   flipped bits.  Acceptance means exactly that the pattern is a multiple of the polynomial.
   */
  lemma TransferChecked(sent: seq<bv8>, e: seq<bv8>, start: nat)
    requires sent != [] && |e| == |sent| && Crc(sent) == 0
    ensures Crc(Xor(sent, e)) == 0 <==> Crc(e) == 0
    ensures Crc(Xor(sent, e)) == 0 <==> IsMultiple(e)
    ensures !NonZero(e) ==> Crc(Xor(sent, e)) == 0
    ensures NonZero(e) && Burst(e, start) ==> Crc(Xor(sent, e)) != 0
    ensures Weight(e) % 2 == 1 ==> Crc(Xor(sent, e)) != 0
  {
    CrcLinear(sent, e);
    AddZero(Crc(e));
    CheckIffZero(e);
    CrcIsRemainder(e[..|e| - 1], e[|e| - 1]);
    assert e[..|e| - 1] + [e[|e| - 1]] == e;
    if !NonZero(e) { CrcTail(e, 0); }
    if NonZero(e) && Burst(e, start) { BurstDetected(sent, e, start); }
    if Weight(e) % 2 == 1 { OddErrorDetected(sent, e); }
  }
}
