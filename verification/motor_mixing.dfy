/** The supervision that mixes four commands into four motors and keeps them in range. */
module MotorMixing {
  import opened CInts

  const PROPS_NB := 4
  const UPPER_LEFT := 0
  const LOWER_RIGHT := 1
  const LOWER_LEFT := 2
  const UPPER_RIGHT := 3

  type Motors = m: seq<int16> | |m| == PROPS_NB witness [0, 0, 0, 0]

  /** Trim constants of the airframe, for roll, pitch and yaw. */
  datatype Trims = Trims(a: int16, e: int16, r: int16)

  /** The mix before it is stored in 16 bits. */
  function RawMix(da: int, de: int, dr: int, dt: int, t: Trims): (raw: seq<int>)
    ensures |raw| == PROPS_NB
  {
    [dt + da - de + dr + (t.a - t.e + t.r),
     dt - da + de + dr + (t.e - t.a + t.r),
     dt + da + de - dr + (t.a + t.e - t.r),
     dt - da - de - dr + (0 - t.a - t.e - t.r)]
  }

  function Stored(raw: seq<int>): Motors
    requires |raw| == PROPS_NB
  {
    [ToInt16(raw[0]), ToInt16(raw[1]), ToInt16(raw[2]), ToInt16(raw[3])]
  }

  // Each command moves two motors up and two down, so the mean motor is the thrust
  lemma MixBalances(da: int, de: int, dr: int, dt: int, t: Trims)
    ensures var raw := RawMix(da, de, dr, dt, t);
            && raw[UPPER_LEFT] + raw[LOWER_RIGHT] + raw[LOWER_LEFT] + raw[UPPER_RIGHT] == 4 * dt
            && raw[UPPER_LEFT] + raw[LOWER_LEFT] - raw[LOWER_RIGHT] - raw[UPPER_RIGHT] == 4 * (da + t.a)
            && raw[LOWER_RIGHT] + raw[LOWER_LEFT] - raw[UPPER_LEFT] - raw[UPPER_RIGHT] == 4 * (de + t.e)
            && raw[UPPER_LEFT] + raw[LOWER_RIGHT] - raw[LOWER_LEFT] - raw[UPPER_RIGHT] == 4 * (dr + t.r)
  {
  }

  function Lower(a: int16, b: int16): int16 { if b < a then b else a }

  function Higher(a: int16, b: int16): int16 { if b > a then b else a }

  function MinMotor(m: Motors): (r: int16)
    ensures r in m && forall i :: 0 <= i < PROPS_NB ==> r <= m[i]
  {
    var r := Lower(Lower(Lower(Lower(0x7FFF, m[0]), m[1]), m[2]), m[3]);
    assert r == m[0] || r == m[1] || r == m[2] || r == m[3];
    r
  }

  function MaxMotor(m: Motors): (r: int16)
    ensures r in m && forall i :: 0 <= i < PROPS_NB ==> r >= m[i]
  {
    var r := Higher(Higher(Higher(Higher(-0x8000, m[0]), m[1]), m[2]), m[3]);
    assert r == m[0] || r == m[1] || r == m[2] || r == m[3];
    r
  }

  function Offset(m: Motors, d: int16): Motors {
    [ToInt16(m[0] + d), ToInt16(m[1] + d), ToInt16(m[2] + d), ToInt16(m[3] + d)]
  }

  function Bound(x: int, lo: int, hi: int): int {
    if x > hi then hi else if x < lo then lo else x
  }

  function BoundAll(m: Motors, lo: int16, hi: int16): Motors {
    [Bound(m[0], lo, hi), Bound(m[1], lo, hi), Bound(m[2], lo, hi), Bound(m[3], lo, hi)]
  }

  function Raised(m: Motors, lo: int16): Motors {
    if MinMotor(m) < lo then Offset(m, ToInt16(-(MinMotor(m) - lo))) else m
  }

  function Lowered(m: Motors, hi: int16): Motors {
    if MaxMotor(m) > hi then Offset(m, ToInt16(-(MaxMotor(m) - hi))) else m
  }

  function Supervised(m: Motors, lo: int16, hi: int16): Motors {
    BoundAll(Lowered(Raised(m, lo), hi), lo, hi)
  }

  /** The macros working on the command array in place. */
  method Mix(mot: array<int16>, da: int, de: int, dr: int, dt: int, t: Trims)
    requires mot.Length == PROPS_NB
    modifies mot
    ensures mot[..] == Stored(RawMix(da, de, dr, dt, t))
  {
    mot[UPPER_LEFT] := ToInt16(dt + da - de + dr + (t.a - t.e + t.r));
    mot[LOWER_RIGHT] := ToInt16(dt - da + de + dr + (t.e - t.a + t.r));
    mot[LOWER_LEFT] := ToInt16(dt + da + de - dr + (t.a + t.e - t.r));
    mot[UPPER_RIGHT] := ToInt16(dt - da - de - dr + (0 - t.a - t.e - t.r));
  }

  method FindMaxMotor(mot: array<int16>) returns (maxMot: int16)
    requires mot.Length == PROPS_NB
    ensures maxMot == MaxMotor(mot[..])
  {
    maxMot := -0x8000;
    if mot[UPPER_LEFT] > maxMot { maxMot := mot[UPPER_LEFT]; }
    if mot[LOWER_RIGHT] > maxMot { maxMot := mot[LOWER_RIGHT]; }
    if mot[LOWER_LEFT] > maxMot { maxMot := mot[LOWER_LEFT]; }
    if mot[UPPER_RIGHT] > maxMot { maxMot := mot[UPPER_RIGHT]; }
  }

  method FindMinMotor(mot: array<int16>) returns (minMot: int16)
    requires mot.Length == PROPS_NB
    ensures minMot == MinMotor(mot[..])
  {
    minMot := 0x7FFF;
    if mot[UPPER_LEFT] < minMot { minMot := mot[UPPER_LEFT]; }
    if mot[LOWER_RIGHT] < minMot { minMot := mot[LOWER_RIGHT]; }
    if mot[LOWER_LEFT] < minMot { minMot := mot[LOWER_LEFT]; }
    if mot[UPPER_RIGHT] < minMot { minMot := mot[UPPER_RIGHT]; }
  }

  method OffsetMotors(mot: array<int16>, offset: int16)
    requires mot.Length == PROPS_NB
    modifies mot
    ensures mot[..] == Offset(old(mot[..]), offset)
  {
    mot[UPPER_LEFT] := ToInt16(mot[UPPER_LEFT] + offset);
    mot[LOWER_RIGHT] := ToInt16(mot[LOWER_RIGHT] + offset);
    mot[LOWER_LEFT] := ToInt16(mot[LOWER_LEFT] + offset);
    mot[UPPER_RIGHT] := ToInt16(mot[UPPER_RIGHT] + offset);
  }

  method BoundMotors(mot: array<int16>, lo: int16, hi: int16)
    requires mot.Length == PROPS_NB
    modifies mot
    ensures mot[..] == BoundAll(old(mot[..]), lo, hi)
  {
    mot[UPPER_LEFT] := Bound(mot[UPPER_LEFT], lo, hi);
    mot[LOWER_RIGHT] := Bound(mot[LOWER_RIGHT], lo, hi);
    mot[LOWER_LEFT] := Bound(mot[LOWER_LEFT], lo, hi);
    mot[UPPER_RIGHT] := Bound(mot[UPPER_RIGHT], lo, hi);
  }

  /** Commands as the supervision takes them. */
  datatype Commands = Commands(roll: int16, pitch: int16, yaw: int16, thrust: int16)

  /** Airframe settings: motor range, yaw gain, trims. */
  datatype Airframe = Airframe(lo: int16, hi: int16, yawGain: int16, trims: Trims)

  function Raw(c: Commands, f: Airframe): (raw: seq<int>)
    ensures |raw| == PROPS_NB
  {
    RawMix(c.roll, c.pitch, TruncDiv(f.yawGain * c.yaw, 20), c.thrust, f.trims)
  }

  /** The commands as they show in the mix: thrust, roll, pitch, and yaw by its gain over 20. */
  lemma RawBalances(c: Commands, f: Airframe, y: int)
    requires IsTruncated(f.yawGain * c.yaw, 20, y)
    ensures var raw := Raw(c, f);
            && raw[0] + raw[1] + raw[2] + raw[3] == 4 * c.thrust
            && raw[0] + raw[2] - raw[1] - raw[3] == 4 * (c.roll + f.trims.a)
            && raw[1] + raw[2] - raw[0] - raw[3] == 4 * (c.pitch + f.trims.e)
            && raw[0] + raw[1] - raw[2] - raw[3] == 4 * (y + f.trims.r)
  {
    TruncDivIff(f.yawGain * c.yaw, 20, y);
    MixBalances(c.roll, c.pitch, y, c.thrust, f.trims);
  }

  function Run(c: Commands, f: Airframe, motorsOn: bool): Motors {
    if motorsOn then Supervised(Stored(Raw(c, f)), f.lo, f.hi) else [0, 0, 0, 0]
  }

  method SupervisionRun(mot: array<int16>, c: Commands, f: Airframe, motorsOn: bool)
    requires mot.Length == PROPS_NB
    modifies mot
    ensures mot[..] == Run(c, f, motorsOn)
  {
    hide MinMotor, MaxMotor, Offset, BoundAll, Stored, RawMix, ToInt16;
    if motorsOn {
      Mix(mot, c.roll, c.pitch, TruncDiv(f.yawGain * c.yaw, 20), c.thrust, f.trims);
      var minMot := FindMinMotor(mot);
      if minMot < f.lo {
        OffsetMotors(mot, ToInt16(-(minMot - f.lo)));
      }
      var maxMot := FindMaxMotor(mot);
      if maxMot > f.hi {
        OffsetMotors(mot, ToInt16(-(maxMot - f.hi)));
      }
      BoundMotors(mot, f.lo, f.hi);
    } else {
      mot[UPPER_LEFT] := 0;
      mot[LOWER_RIGHT] := 0;
      mot[LOWER_LEFT] := 0;
      mot[UPPER_RIGHT] := 0;
    }
  }

  // ---------------------------------------------------------------- what it computes

  function Lift(m: Motors, lo: int16): int {
    if MinMotor(m) < lo then lo - MinMotor(m) else 0
  }

  function Drop(m: Motors, lo: int16, hi: int16): int {
    var top := MaxMotor(m) + Lift(m, lo);
    if top > hi then top - hi else 0
  }

  /** The values in between fit 16 bits. */
  predicate NoOverflow(m: Motors, lo: int16, hi: int16) {
    && MaxMotor(m) + Lift(m, lo) < 0x8000
    && MinMotor(m) + Lift(m, lo) - Drop(m, lo, hi) >= -0x8000
  }

  lemma WrapCancels(x: int, d: int)
    requires -0x8000 <= x + d < 0x8000
    ensures ToInt16(x + ToInt16(d)) == x + d
  {
  }

  lemma OffsetExact(m: Motors, d: int)
    requires -0x8000 <= MinMotor(m) + d && MaxMotor(m) + d < 0x8000
    ensures forall i :: 0 <= i < PROPS_NB ==> Offset(m, ToInt16(d))[i] == m[i] + d
    ensures MinMotor(Offset(m, ToInt16(d))) == MinMotor(m) + d
    ensures MaxMotor(Offset(m, ToInt16(d))) == MaxMotor(m) + d
  {
    hide MinMotor, MaxMotor, ToInt16;
    WrapCancels(m[0], d);
    WrapCancels(m[1], d);
    WrapCancels(m[2], d);
    WrapCancels(m[3], d);
    var o := Offset(m, ToInt16(d));
    assert forall i :: 0 <= i < PROPS_NB ==> o[i] == m[i] + d;
  }

  /** Every motor is moved by one common shift and then clamped; no wrap-around shows. */
  lemma CommonShift(m: Motors, lo: int16, hi: int16)
    requires NoOverflow(m, lo, hi)
    ensures forall i :: 0 <= i < PROPS_NB ==>
              Supervised(m, lo, hi)[i] == Bound(m[i] + Lift(m, lo) - Drop(m, lo, hi), lo, hi)
  {
    hide MinMotor, MaxMotor, Offset, ToInt16, Bound;
    if MinMotor(m) < lo {
      OffsetExact(m, lo - MinMotor(m));
    }
    var r := Raised(m, lo);
    assert MaxMotor(r) == MaxMotor(m) + Lift(m, lo) && MinMotor(r) == MinMotor(m) + Lift(m, lo);
    if MaxMotor(r) > hi {
      OffsetExact(r, hi - MaxMotor(r));
    }
  }

  function Spread(m: Motors): int {
    MaxMotor(m) - MinMotor(m)
  }

  predicate InRange(o: Motors, lo: int16, hi: int16) {
    forall i :: 0 <= i < PROPS_NB ==> lo <= o[i] <= hi
  }

  // The order of m, and no pair further apart than in m
  predicate OrderKept(m: Motors, o: Motors) {
    forall i, j :: 0 <= i < PROPS_NB && 0 <= j < PROPS_NB && m[i] <= m[j] ==>
      0 <= (o[j] as int) - o[i] <= (m[j] as int) - m[i]
  }

  predicate DifferencesKept(m: Motors, o: Motors) {
    forall i, j :: 0 <= i < PROPS_NB && 0 <= j < PROPS_NB ==>
      (o[j] as int) - o[i] == (m[j] as int) - m[i]
  }

  // The outputs of a mix that fits the range: moved no further than to the bound it crossed
  predicate Fitted(m: Motors, o: Motors, lo: int16, hi: int16) {
    && DifferencesKept(m, o)
    && (MinMotor(m) < lo ==> MinMotor(o) == lo)
    && (MaxMotor(m) > hi ==> MaxMotor(o) == hi)
    && (lo <= MinMotor(m) && MaxMotor(m) <= hi ==> o == m)
  }

  // And of one that does not: the strongest motor at the top, what falls below the bottom there
  predicate Squeezed(m: Motors, o: Motors, lo: int16, hi: int16) {
    && MaxMotor(o) == hi && MinMotor(o) == lo
    && forall i :: 0 <= i < PROPS_NB ==>
         o[i] == if hi - (MaxMotor(m) as int - m[i]) < lo then lo else hi - (MaxMotor(m) as int - m[i])
  }

  // o is m moved by s and clamped, with the top of m at or under hi
  predicate Clamped(m: Motors, o: Motors, s: int, lo: int16, hi: int16) {
    forall i :: 0 <= i < PROPS_NB ==> o[i] == Bound(m[i] + s, lo, hi)
  }

  // The range is wide enough: nothing is clamped
  lemma ClampedFits(m: Motors, o: Motors, s: int, lo: int16, hi: int16)
    requires Clamped(m, o, s, lo, hi) && lo <= MinMotor(m) + s && MaxMotor(m) + s <= hi
    ensures DifferencesKept(m, o) && (s == 0 ==> o == m)
    ensures MinMotor(o) == MinMotor(m) + s && MaxMotor(o) == MaxMotor(m) + s
  {
    hide MinMotor, MaxMotor;
    assert forall i :: 0 <= i < PROPS_NB ==> o[i] == m[i] + s;
  }

  // It is not: the extremes end at the bounds
  lemma ClampedSaturates(m: Motors, o: Motors, s: int, lo: int16, hi: int16)
    requires lo <= hi && Clamped(m, o, s, lo, hi)
    requires MaxMotor(m) + s <= hi && MinMotor(m) + s < lo
    ensures MinMotor(o) == lo && MaxMotor(o) == Bound(MaxMotor(m) + s, lo, hi)
    ensures MaxMotor(m) + s == hi ==> Squeezed(m, o, lo, hi)
  {
    var a: nat :| a < PROPS_NB && m[a] == MinMotor(m);
    var b: nat :| b < PROPS_NB && m[b] == MaxMotor(m);
    hide MinMotor, MaxMotor;
    assert o[a] == lo && o[b] == Bound(MaxMotor(m) + s, lo, hi);
    assert forall i :: 0 <= i < PROPS_NB ==> lo <= o[i] <= o[b];
    assert MinMotor(o) in o && MaxMotor(o) in o;
  }

  lemma ClampedKeepsOrder(m: Motors, o: Motors, s: int, lo: int16, hi: int16)
    requires lo <= hi && Clamped(m, o, s, lo, hi)
    ensures InRange(o, lo, hi) && OrderKept(m, o)
  {
  }

  lemma MaxIsMotor(m: Motors)
    ensures exists i: nat, j: nat ::
      i < PROPS_NB && j < PROPS_NB && m[i] == MinMotor(m) && m[j] == MaxMotor(m)
  {
    hide MinMotor, MaxMotor;
    var a: nat :| a < PROPS_NB && m[a] == MinMotor(m);
    var b: nat :| b < PROPS_NB && m[b] == MaxMotor(m);
  }

  /**
   The mixer's guarantee: outputs in range, in the order of the mix, no pair further apart
   than in the mix, every difference kept exactly when the spread of the mix fits the range;
   what fits is moved no further than needed, and of what does not the top is kept.
   */
  lemma MixerLaws(m: Motors, lo: int16, hi: int16)
    requires lo <= hi && NoOverflow(m, lo, hi)
    ensures var o := Supervised(m, lo, hi);
            && InRange(o, lo, hi) && OrderKept(m, o)
            && (DifferencesKept(m, o) <==> Spread(m) <= hi as int - lo)
            && if Spread(m) <= hi as int - lo then Fitted(m, o, lo, hi) else Squeezed(m, o, lo, hi)
  {
    hide MinMotor, MaxMotor, Supervised, NoOverflow, InRange, OrderKept, DifferencesKept, Squeezed;
    CommonShift(m, lo, hi);
    var o := Supervised(m, lo, hi);
    var s := Lift(m, lo) - Drop(m, lo, hi);
    assert Clamped(m, o, s, lo, hi);
    hide Clamped, Bound;
    ClampedKeepsOrder(m, o, s, lo, hi);
    TopReaches(m, lo, hi);
    if MinMotor(m) + s >= lo {
      ClampedFits(m, o, s, lo, hi);
    } else {
      ClampedSaturates(m, o, s, lo, hi);
    }
    if DifferencesKept(m, o) {
      DifferencesMeetRange(m, o, lo, hi);
    }
  }

  lemma TopReaches(m: Motors, lo: int16, hi: int16)
    requires lo <= hi
    ensures var s := Lift(m, lo) - Drop(m, lo, hi);
            && MaxMotor(m) + s <= hi
            && (MinMotor(m) + s < lo ==> Bound(MaxMotor(m) + s, lo, hi) == hi)
  {
    assert MinMotor(m) <= MaxMotor(m);
    hide MinMotor, MaxMotor;
  }

  lemma DifferencesMeetRange(m: Motors, o: Motors, lo: int16, hi: int16)
    requires InRange(o, lo, hi) && DifferencesKept(m, o)
    ensures Spread(m) <= hi - lo
  {
    MaxIsMotor(m);
    hide MinMotor, MaxMotor;
  }

  /** Outputs are in range whatever overflows. */
  lemma AlwaysInRange(m: Motors, lo: int16, hi: int16)
    requires lo <= hi
    ensures InRange(Supervised(m, lo, hi), lo, hi)
  {
    hide Lowered, Raised;
  }

  /** For a range of positive commands it is enough to bound the spread. */
  lemma SpreadSuffices(m: Motors, lo: int16, hi: int16)
    requires 0 <= lo <= hi && Spread(m) + lo < 0x8000
    ensures NoOverflow(m, lo, hi)
  {
    hide MinMotor, MaxMotor;
  }

  // ---------------------------------------------------------------- with overflow

  // The strongest motor that raising leaves within 16 bits
  function TopThatFits(m: Motors, lo: int16): (t: int16)
    ensures t in m && t + Lift(m, lo) < 0x8000
    ensures forall i :: 0 <= i < PROPS_NB && m[i] + Lift(m, lo) < 0x8000 ==> m[i] <= t
  {
    var d := Lift(m, lo);
    assert MinMotor(m) + d < 0x8000;
    var t := Stronger(Stronger(Stronger(Stronger(MinMotor(m), m[0], d), m[1], d), m[2], d), m[3], d);
    assert t == MinMotor(m) || t == m[0] || t == m[1] || t == m[2] || t == m[3];
    t
  }

  function Stronger(a: int16, b: int16, d: int): int16 {
    if b + d < 0x8000 && b > a then b else a
  }

  /**
   Whether the order of the mix survives: nothing overflows; or the motors that do overflow
   while being raised are clamped to the bottom, which the others must then share; or the
   lowering that follows brings all of them back by wrapping a second time.
   */
  predicate OrderSurvives(m: Motors, lo: int16, hi: int16) {
    || MaxMotor(m) + Lift(m, lo) < 0x8000
    || var t := TopThatFits(m, lo);
       if t + Lift(m, lo) <= hi then t == MinMotor(m)
       else lo == hi || MaxMotor(m) - t + hi < 0x8000
  }

  // What becomes of a motor at x when some motor overflows; d is the lift, t the top that fits
  function AfterOverflow(x: int, d: int, t: int, lo: int, hi: int): int {
    if t + d <= hi then (if x + d < 0x8000 then x + d else lo)
    else if x + d < 0x8000 then Bound(x - t + hi, lo, hi)
    else if x - t + hi < 0x8000 then hi
    else lo
  }

  function Wrap(x: int): int {
    if x < 0x8000 then x else x - 0x1_0000
  }

  lemma RaiseOne(x: int16, d: int)
    requires 0 <= x + d < 0x1_8000
    ensures ToInt16(x + ToInt16(d)) == Wrap(x + d)
  {
  }

  // Lowering a raised motor, clamped: e is the amount
  lemma LowerOne(x: int, e: int, lo: int, hi: int)
    requires 0 <= lo <= hi < 0x8000 && lo <= x < 0x1_0000 + lo && 0 < e <= 0x7FFF
    requires x < 0x8000 ==> x - e <= hi
    requires x >= 0x8000 ==> x - e > hi
    ensures Bound(ToInt16(Wrap(x) + ToInt16(-e)), lo, hi) ==
            if x < 0x8000 then Bound(x - e, lo, hi) else if x - e < 0x8000 then hi else lo
  {
    assert ToInt16(-e) == -e;
  }

  lemma RaisedWrapped(m: Motors, lo: int16)
    requires 0 <= lo && MinMotor(m) < lo
    ensures forall i :: 0 <= i < PROPS_NB ==>
              lo <= m[i] + Lift(m, lo) < 0x1_0000 + lo && Raised(m, lo)[i] == Wrap(m[i] + Lift(m, lo))
  {
    hide MinMotor, ToInt16;
    var d := Lift(m, lo);
    RaiseOne(m[0], d);
    RaiseOne(m[1], d);
    RaiseOne(m[2], d);
    RaiseOne(m[3], d);
  }

  lemma RaisedTop(m: Motors, lo: int16)
    requires 0 <= lo && MaxMotor(m) + Lift(m, lo) >= 0x8000
    ensures MinMotor(m) < lo
    ensures lo <= MaxMotor(Raised(m, lo)) == TopThatFits(m, lo) + Lift(m, lo)
  {
    RaisedWrapped(m, lo);
    var r, d, t := Raised(m, lo), Lift(m, lo), TopThatFits(m, lo);
    hide MinMotor, MaxMotor, TopThatFits, Raised;
    var k: nat :| k < PROPS_NB && m[k] == t;
    assert r[k] == t + d;
    assert forall i :: 0 <= i < PROPS_NB ==> r[i] <= t + d;
  }

  lemma OverflowOutput(m: Motors, lo: int16, hi: int16, i: nat)
    requires 0 <= lo <= hi && MaxMotor(m) + Lift(m, lo) >= 0x8000 && i < PROPS_NB
    ensures Supervised(m, lo, hi)[i] == AfterOverflow(m[i], Lift(m, lo), TopThatFits(m, lo), lo, hi)
  {
    hide MinMotor, MaxMotor, TopThatFits, Raised, Lift, ToInt16, Bound;
    var d, t := Lift(m, lo), TopThatFits(m, lo);
    RaisedTop(m, lo);
    RaisedWrapped(m, lo);
    if t + d > hi {
      LowerOne(m[i] + d, t + d - hi, lo, hi);
    } else {
      BoundRaised(m[i] + d, lo, hi);
    }
  }

  lemma BoundRaised(x: int, lo: int, hi: int)
    requires 0 <= lo <= hi < 0x8000 && lo <= x < 0x1_0000 + lo && (x < 0x8000 ==> x <= hi)
    ensures Bound(Wrap(x), lo, hi) == if x < 0x8000 then x else lo
  {
  }

  lemma OverflowOutputs(m: Motors, lo: int16, hi: int16)
    requires 0 <= lo <= hi && MaxMotor(m) + Lift(m, lo) >= 0x8000
    ensures forall i :: 0 <= i < PROPS_NB ==>
              Supervised(m, lo, hi)[i] == AfterOverflow(m[i], Lift(m, lo), TopThatFits(m, lo), lo, hi)
  {
    hide *;
    forall i: nat | i < PROPS_NB
      ensures Supervised(m, lo, hi)[i] == AfterOverflow(m[i], Lift(m, lo), TopThatFits(m, lo), lo, hi)
    {
      OverflowOutput(m, lo, hi, i);
    }
  }

  lemma PairKept(x: int, y: int, d: int, t: int, lo: int, hi: int)
    requires 0 <= lo <= hi < 0x8000 && x <= y && lo <= x + d
    requires t + d < 0x8000 && (x + d < 0x8000 ==> x <= t) && (y + d < 0x8000 ==> y <= t)
    requires if t + d <= hi then t + d == lo else lo == hi || y - t + hi < 0x8000
    ensures 0 <= AfterOverflow(y, d, t, lo, hi) - AfterOverflow(x, d, t, lo, hi) <= y - x
  {
  }

  /** The order of the mix is kept exactly when OrderSurvives says so. */
  lemma OrderKeptIff(m: Motors, lo: int16, hi: int16)
    requires 0 <= lo <= hi
    ensures OrderKept(m, Supervised(m, lo, hi)) <==> OrderSurvives(m, lo, hi)
  {
    hide MinMotor, MaxMotor, Supervised, TopThatFits;
    var o := Supervised(m, lo, hi);
    if MaxMotor(m) + Lift(m, lo) < 0x8000 {
      MixerLaws(m, lo, hi);
    } else {
      OverflowOutputs(m, lo, hi);
      RaisedTop(m, lo);
      if OrderSurvives(m, lo, hi) {
        SurvivingOrder(m, o, lo, hi);
      } else {
        LostOrder(m, o, lo, hi);
      }
    }
  }

  predicate Overflowed(m: Motors, o: Motors, lo: int16, hi: int16) {
    && 0 <= lo <= hi && MinMotor(m) < lo && MaxMotor(m) + Lift(m, lo) >= 0x8000
    && forall i :: 0 <= i < PROPS_NB ==>
         o[i] == AfterOverflow(m[i], Lift(m, lo), TopThatFits(m, lo), lo, hi)
  }

  lemma SurvivingOrder(m: Motors, o: Motors, lo: int16, hi: int16)
    requires Overflowed(m, o, lo, hi) && OrderSurvives(m, lo, hi)
    ensures OrderKept(m, o)
  {
    hide MinMotor, MaxMotor, TopThatFits, AfterOverflow;
    var d, t := Lift(m, lo), TopThatFits(m, lo);
    forall i, j | 0 <= i < PROPS_NB && 0 <= j < PROPS_NB && m[i] <= m[j]
      ensures 0 <= (o[j] as int) - o[i] <= (m[j] as int) - m[i]
    {
      PairKept(m[i], m[j], d, t, lo, hi);
    }
  }

  // The strongest motor ends at the bottom and one that did not overflow ends above it
  lemma LostOrder(m: Motors, o: Motors, lo: int16, hi: int16)
    requires Overflowed(m, o, lo, hi) && !OrderSurvives(m, lo, hi)
    ensures !OrderKept(m, o)
    ensures exists i, j :: 0 <= i < PROPS_NB && 0 <= j < PROPS_NB && m[i] < m[j] && o[i] > o[j] == lo
  {
    MaxIsMotor(m);
    hide MinMotor, MaxMotor, TopThatFits;
    var i: nat :| i < PROPS_NB && m[i] == TopThatFits(m, lo);
    var j: nat :| j < PROPS_NB && m[j] == MaxMotor(m);
    assert m[i] < m[j] && o[i] > o[j] == lo;
  }

  /** Differences are kept exactly when the spread of the mix fits the range, overflow or not. */
  lemma DifferencesKeptIff(m: Motors, lo: int16, hi: int16)
    requires 0 <= lo <= hi
    ensures DifferencesKept(m, Supervised(m, lo, hi)) <==> Spread(m) <= hi - lo
  {
    hide MinMotor, MaxMotor, Supervised, InRange, DifferencesKept;
    if Spread(m) + lo < 0x8000 {
      SpreadSuffices(m, lo, hi);
      MixerLaws(m, lo, hi);
    } else if DifferencesKept(m, Supervised(m, lo, hi)) {
      AlwaysInRange(m, lo, hi);
      DifferencesMeetRange(m, Supervised(m, lo, hi), lo, hi);
    }
  }

  /** Commands of zero thrust for which the order is lost: the strongest motor gets the least. */
  lemma OverflowBreaksOrder()
    ensures var c, f := Commands(-10000, -9996, -10004, 0), Airframe(10, 200, 20, Trims(0, 0, 0));
            var m: Motors := [-10008, -10000, -9992, 30000];
            Raw(c, f) == m && Run(c, f, true) == [10, 18, 26, 10] && !OrderSurvives(m, 10, 200)
  {
    var m: Motors := [-10008, -10000, -9992, 30000];
    assert Stored(m) == m;
    OverflowExample(m);
    hide Supervised, MinMotor, MaxMotor, TopThatFits, OrderSurvives, Stored;
  }

  lemma OverflowExample(m: Motors)
    requires m == [-10008, -10000, -9992, 30000]
    ensures Supervised(m, 10, 200) == [10, 18, 26, 10] && !OrderSurvives(m, 10, 200)
  {
    FindExtremes(m, -10008, 30000);
    hide MinMotor, MaxMotor, TopThatFits, Supervised;
    var t := TopThatFits(m, 10);
    assert m[2] + Lift(m, 10) < 0x8000 <= m[3] + Lift(m, 10);
    assert t == -9992;
    OverflowOutputs(m, 10, 200);
  }

  lemma FindExtremes(m: Motors, least: int16, most: int16)
    requires least in m && most in m
    requires forall i :: 0 <= i < PROPS_NB ==> least <= m[i] <= most
    ensures MinMotor(m) == least && MaxMotor(m) == most
  {
    hide MinMotor, MaxMotor;
  }
}
