/** C integer types and the conversions the airborne code relies on. */
module CInts {

  type uint8 = x: int | 0 <= x < 0x100
  type int8 = x: int | -0x80 <= x < 0x80
  type uint16 = x: int | 0 <= x < 0x1_0000
  type int16 = x: int | -0x8000 <= x < 0x8000
  type uint32 = x: int | 0 <= x < 0x1_0000_0000
  type int32 = x: int | -0x8000_0000 <= x < 0x8000_0000

  // Conversions to a narrower type keep the value modulo the width.

  function ToUint8(x: int): uint8 { x % 0x100 }

  function ToInt8(x: int): int8 { (x + 0x80) % 0x100 - 0x80 }

  function ToUint16(x: int): uint16 { x % 0x1_0000 }

  function ToInt16(x: int): int16 { (x + 0x8000) % 0x1_0000 - 0x8000 }

  function ToUint32(x: int): uint32 { x % 0x1_0000_0000 }

  /** C division: the quotient is truncated toward zero. */
  function TruncDiv(a: int, b: int): int
    requires b != 0
  {
    if (a >= 0) == (b > 0) || a % b == 0 then a / b
    else if b > 0 then a / b + 1
    else a / b - 1
  }

  /** The quotient times the divisor leaves a remainder with the sign of the dividend. */
  predicate IsTruncated(a: int, b: int, q: int) {
    if a >= 0 then 0 <= a - q * b < b else -b < a - q * b <= 0
  }

  lemma QuotientUnique(b: int, q: int, r: int, s: int, t: int)
    requires b > 0 && q * b + r == s * b + t
    requires 0 <= r < b && 0 <= t < b
    ensures q == s
  {
    var d := q - s;
    assert d * b == t - r;
    OutOfReach(d, b, d * b);
  }

  lemma OutOfReach(d: int, b: int, p: int)
    requires b > 0 && p == d * b
    ensures d >= 1 ==> p >= b
    ensures d <= -1 ==> p <= -b
  {
  }

  /** Division by a positive number is truncated, and only truncation is. */
  lemma TruncDivIff(a: int, b: int, q: int)
    requires b > 0
    ensures q == TruncDiv(a, b) <==> IsTruncated(a, b, q)
  {
    var f, r := a / b, a % b;
    assert a == f * b + r;
    var c := TruncDiv(a, b);
    assert c == if a >= 0 || r == 0 then f else f + 1;
    assert (f + 1) * b == f * b + b;
    if IsTruncated(a, b, q) {
      if a >= 0 {
        QuotientUnique(b, q, a - q * b, f, r);
      } else {
        assert -q * b == -(q * b) && -c * b == -(c * b);
        QuotientUnique(b, -q, q * b - a, -c, c * b - a);
      }
    }
  }

  // A conversion gives the only value of the type that is congruent to the argument.

  lemma Uint8Iff(x: int, v: uint8)
    ensures v == ToUint8(x) <==> (x - v) % 0x100 == 0
  {
  }

  lemma Int8Iff(x: int, v: int8)
    ensures v == ToInt8(x) <==> (x - v) % 0x100 == 0
  {
  }

  lemma Uint16Iff(x: int, v: uint16)
    ensures v == ToUint16(x) <==> (x - v) % 0x1_0000 == 0
  {
  }

  lemma Int16Iff(x: int, v: int16)
    ensures v == ToInt16(x) <==> (x - v) % 0x1_0000 == 0
  {
  }

  lemma Uint32Iff(x: int, v: uint32)
    ensures v == ToUint32(x) <==> (x - v) % 0x1_0000_0000 == 0
  {
  }
}
