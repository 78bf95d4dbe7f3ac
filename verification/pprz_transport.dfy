/**
 The pprz transport: STX, LENGTH, payload, CK_A, CK_B. LENGTH counts the whole frame,
 and the two checksums are the Fletcher sums of LENGTH and payload.
 */
module PprzFormat {
  import opened CInts
  import opened Fletcher

  const STX: uint8 := 0x99
  const PAYLOAD_LEN := 256

  function MsgLen(payloadLen: nat): uint8 {
    ToUint8(payloadLen + 4)
  }

  function FrameWith(p: seq<uint8>, a: uint8, b: uint8): seq<uint8> {
    [STX, MsgLen(|p|)] + p + [a, b]
  }

  function CheckA(p: seq<uint8>): uint8 {
    SumA(MsgLen(|p|), p)
  }

  function CheckB(p: seq<uint8>): uint8 {
    SumB(MsgLen(|p|), MsgLen(|p|), p)
  }

  function Frame(p: seq<uint8>): seq<uint8> {
    FrameWith(p, CheckA(p), CheckB(p))
  }

  /** The frame byte by byte: the length byte counts all of it, the sums cover all but the start. */
  lemma FrameBytes(p: seq<uint8>)
    ensures var f, n := Frame(p), |p|;
            && |f| == n + 4
            && f[0] == 0x99 && f[1] == ToUint8(|f|) && f[2..2 + n] == p
            && f[2 + n] == ToUint8(Total(f[1..2 + n]))
            && f[3 + n] == ToUint8(Weighted(f[1..2 + n]))
  {
    hide SumA, SumB, Total, Weighted, ToUint8;
    StartedWith(MsgLen(|p|), p);
    assert Frame(p)[1..2 + |p|] == [MsgLen(|p|)] + p;
  }

  lemma SumOne(a: uint8, b: uint8, c: uint8)
    ensures SumA(a, [c]) == ToUint8(a + c)
    ensures SumB(a, b, [c]) == ToUint8(b + SumA(a, [c]))
  {
    assert [] + [c] == [c];
    SumStep(a, b, [], c);
  }

  function Flat(elements: seq<seq<uint8>>): seq<uint8> {
    if elements == [] then [] else Flat(elements[..|elements| - 1]) + elements[|elements| - 1]
  }

  /** The sending macros. Every byte given to the device is appended to out. */
  class Writer {
    var ckA: uint8
    var ckB: uint8
    var out: seq<uint8>

    constructor ()
      ensures out == []
    {
      out := [];
      ckA, ckB := 0, 0;
    }

    method Header(payloadLen: nat)
      modifies this
      ensures out == old(out) + [STX, MsgLen(payloadLen)]
      ensures ckA == ckB == MsgLen(payloadLen)
    {
      out := out + [STX];
      var msgLen := ToUint8(payloadLen + 4);
      out := out + [msgLen];
      ckA := msgLen;
      ckB := msgLen;
      assert out == old(out) + [STX, msgLen];
    }

    method PutUint8(c: uint8)
      modifies this
      ensures out == old(out) + [c]
      ensures ckA == SumA(old(ckA), [c])
      ensures ckB == SumB(old(ckA), old(ckB), [c])
    {
      SumOne(ckA, ckB, c);
      ckA := ToUint8(ckA + c);
      ckB := ToUint8(ckB + ckA);
      out := out + [c];
    }

    // The count, then that many elements, each given by its bytes in memory order
    method PutArray(elements: seq<seq<uint8>>)
      requires |elements| <= 255
      modifies this
      ensures var bytes := [|elements|] + Flat(elements);
              && out == old(out) + bytes
              && ckA == SumA(old(ckA), bytes)
              && ckB == SumB(old(ckA), old(ckB), bytes)
    {
      hide SumA, SumB;
      PutUint8(|elements|);
      ghost var count := [|elements|];
      assert count + Flat(elements[..0]) == count;
      for i := 0 to |elements|
        invariant out == old(out) + (count + Flat(elements[..i]))
        invariant ckA == SumA(old(ckA), count + Flat(elements[..i]))
        invariant ckB == SumB(old(ckA), old(ckB), count + Flat(elements[..i]))
      {
        PutAll(elements[i]);
        ghost var done := count + Flat(elements[..i]);
        assert elements[..i + 1][..i] == elements[..i];
        assert count + Flat(elements[..i + 1]) == done + elements[i];
        SumAppend(old(ckA), old(ckB), done, elements[i]);
      }
      assert elements[..|elements|] == elements;
    }

    method PutAll(xs: seq<uint8>)
      modifies this
      ensures out == old(out) + xs
      ensures ckA == SumA(old(ckA), xs)
      ensures ckB == SumB(old(ckA), old(ckB), xs)
    {
      hide SumA, SumB;
      SumNothing(ckA, ckB);
      assert xs[..0] == [];
      for i := 0 to |xs|
        invariant out == old(out) + xs[..i]
        invariant ckA == SumA(old(ckA), xs[..i])
        invariant ckB == SumB(old(ckA), old(ckB), xs[..i])
      {
        PutUint8(xs[i]);
        assert xs[..i + 1] == xs[..i] + [xs[i]];
        SumAppend(old(ckA), old(ckB), xs[..i], [xs[i]]);
      }
      assert xs[..|xs|] == xs;
    }

    method Trailer()
      modifies this
      ensures out == old(out) + [ckA, ckB]
      ensures ckA == old(ckA) && ckB == old(ckB)
    {
      out := out + [ckA];
      out := out + [ckB];
      assert out == old(out) + [ckA, ckB];
    }

    /** What a downlink macro expands to: header, payload, trailer. */
    method Send(payload: seq<uint8>)
      modifies this
      ensures out == old(out) + Frame(payload)
    {
      Header(|payload|);
      PutAll(payload);
      Trailer();
    }
  }
}

/** The byte-at-a-time parser. */
module PprzParser {
  import opened CInts
  import opened Fletcher
  import opened PprzFormat

  datatype Status = Uninit | GotStx | GotLength | GotPayload | GotCrc1

  type PayloadBuffer = b: seq<uint8> | |b| == PAYLOAD_LEN witness Zeroes()

  function Zeroes(): (z: seq<uint8>)
    ensures |z| == PAYLOAD_LEN
  {
    seq(PAYLOAD_LEN, i => 0)
  }

  datatype ParserState = ParserState(
    status: Status, ckA: uint8, ckB: uint8, idx: uint8,
    payload: PayloadBuffer, payloadLen: uint8, received: bool, ovrn: uint8, err: uint8)

  function Error(s: ParserState): ParserState {
    s.(status := Uninit, err := ToUint8(s.err + 1))
  }

  function Parse(s: ParserState, c: uint8): ParserState {
    match s.status
    case Uninit => if c == STX then s.(status := GotStx) else s
    case GotStx =>
      if s.received then Error(s.(ovrn := ToUint8(s.ovrn + 1)))
      else s.(payloadLen := ToUint8(c - 4), ckA := c, ckB := c, status := GotLength, idx := 0)
    case GotLength =>
      var ckA := ToUint8(s.ckA + c);
      var idx := ToUint8(s.idx + 1);
      s.(payload := s.payload[s.idx := c], ckA := ckA, ckB := ToUint8(s.ckB + ckA), idx := idx,
         status := if idx == s.payloadLen then GotPayload else GotLength)
    case GotPayload => if c != s.ckA then Error(s) else s.(status := GotCrc1)
    case GotCrc1 => if c != s.ckB then Error(s) else s.(received := true, status := Uninit)
  }

  /** The static variables of the parser, changed in place. */
  class Parser {
    var status: Status
    var ckA: uint8
    var ckB: uint8
    var idx: uint8
    const payload: array<uint8>
    var payloadLen: uint8
    var received: bool
    var ovrn: uint8
    var err: uint8

    ghost predicate Valid() {
      payload.Length == PAYLOAD_LEN
    }

    ghost function Model(): ParserState
      requires Valid()
      reads this, payload
    {
      ParserState(status, ckA, ckB, idx, payload[..], payloadLen, received, ovrn, err)
    }

    constructor ()
      ensures Valid() && fresh(payload)
      ensures Model().status == Uninit && !received && ovrn == 0 && err == 0
    {
      status, received, ovrn, err := Uninit, false, 0, 0;
      ckA, ckB, idx, payloadLen := 0, 0, 0, 0;
      payload := new uint8[PAYLOAD_LEN];
    }

    method ParsePprz(c: uint8)
      requires Valid()
      modifies this, payload
      ensures Model() == Parse(old(Model()), c)
    {
      match status {
        case Uninit =>
          if c == STX { status := GotStx; }
        case GotStx =>
          if received {
            ovrn := ToUint8(ovrn + 1);
            Fail();
          } else {
            payloadLen := ToUint8(c - 4);
            ckA, ckB := c, c;
            status := GotLength;
            idx := 0;
          }
        case GotLength =>
          payload[idx] := c;
          ckA := ToUint8(ckA + c);
          ckB := ToUint8(ckB + ckA);
          idx := ToUint8(idx + 1);
          if idx == payloadLen { status := GotPayload; }
        case GotPayload =>
          if c != ckA { Fail(); } else { status := GotCrc1; }
        case GotCrc1 =>
          if c != ckB {
            Fail();
          } else {
            received := true;
            status := Uninit;
          }
      }
    }

    method Fail()
      requires Valid()
      modifies this
      ensures Model() == Error(old(Model()))
    {
      err := ToUint8(err + 1);
      status := Uninit;
    }
  }

  // ---------------------------------------------------------------- one frame

  function ParseAll(s: ParserState, bytes: seq<uint8>): ParserState {
    if bytes == [] then s else Parse(ParseAll(s, bytes[..|bytes| - 1]), bytes[|bytes| - 1])
  }

  // n payload bytes of p are in the buffer and in the sums
  predicate Holds(s: ParserState, p: seq<uint8>, n: nat)
    requires n <= |p|
  {
    && n <= PAYLOAD_LEN
    && s.payloadLen == ToUint8(|p|)
    && s.payload[..n] == p[..n]
    && s.ckA == SumA(MsgLen(|p|), p[..n])
    && s.ckB == SumB(MsgLen(|p|), MsgLen(|p|), p[..n])
  }

  // The first k bytes of the frame of p have been parsed
  predicate Inside(s: ParserState, p: seq<uint8>, k: nat) {
    && 1 <= |p| <= PAYLOAD_LEN
    && !s.received
    && if k == 0 then s.status == Uninit
       else if k == 1 then s.status == GotStx
       else if k < 2 + |p| then s.status == GotLength && s.idx == k - 2 && Holds(s, p, k - 2)
       else if k == 2 + |p| then s.status == GotPayload && Holds(s, p, |p|)
       else k == 3 + |p| && s.status == GotCrc1 && Holds(s, p, |p|)
  }

  lemma LengthByte(n: nat)
    ensures ToUint8(MsgLen(n) - 4) == ToUint8(n)
  {
  }

  lemma Fits(n: nat, k: nat)
    requires n <= k <= PAYLOAD_LEN && 1 <= k
    ensures n < PAYLOAD_LEN ==> ToUint8(n) == n
    ensures ToUint8(n) == ToUint8(k) <==> n == k || (n == 0 && k == PAYLOAD_LEN)
  {
  }

  lemma HoldsMore(s: ParserState, p: seq<uint8>, n: nat)
    requires 1 <= |p| <= PAYLOAD_LEN && n < |p|
    requires s.status == GotLength && s.idx == n && Holds(s, p, n)
    ensures Holds(Parse(s, p[n]), p, n + 1)
    ensures Parse(s, p[n]).idx == ToUint8(n + 1)
  {
    assert p[..n + 1] == p[..n] + [p[n]];
    SumStep(MsgLen(|p|), MsgLen(|p|), p[..n], p[n]);
    hide MsgLen, SumA, SumB, ToUint8;
    var s' := Parse(s, p[n]);
    assert s'.payload[..n + 1] == s.payload[..n] + [p[n]];
  }

  lemma InsideStep(s: ParserState, p: seq<uint8>, k: nat, c: uint8)
    requires Inside(s, p, k) && k < 2 + |p|
    requires c == FrameWith(p, 0, 0)[k]
    ensures Inside(Parse(s, c), p, k + 1)
    ensures Parse(s, c).ovrn == s.ovrn && Parse(s, c).err == s.err
  {
    var q := p[..0];
    assert SumA(MsgLen(|p|), q) == SumB(MsgLen(|p|), MsgLen(|p|), q) == MsgLen(|p|);
    LengthByte(|p|);
    hide SumA, SumB, MsgLen, ToUint8;
    if k >= 2 {
      assert c == p[k - 2];
      HoldsMore(s, p, k - 2);
      Fits(k - 1, |p|);
    }
  }

  lemma {:induction false} ParsesPayload(s: ParserState, p: seq<uint8>, a: uint8, b: uint8, k: nat)
    requires Inside(s, p, 0) && k <= 2 + |p|
    ensures Inside(ParseAll(s, FrameWith(p, a, b)[..k]), p, k)
    ensures ParseAll(s, FrameWith(p, a, b)[..k]).ovrn == s.ovrn
    ensures ParseAll(s, FrameWith(p, a, b)[..k]).err == s.err
  {
    var f := FrameWith(p, a, b);
    if k > 0 {
      ParsesPayload(s, p, a, b, k - 1);
      assert f[..k][..k - 1] == f[..k - 1] && f[..k][k - 1] == f[k - 1];
      assert f[k - 1] == FrameWith(p, 0, 0)[k - 1];
      hide Parse, FrameWith, Inside;
      InsideStep(ParseAll(s, f[..k - 1]), p, k - 1, f[k - 1]);
    }
  }

  lemma ParseAllTwo(s: ParserState, bytes: seq<uint8>, a: uint8, b: uint8)
    ensures ParseAll(s, bytes + [a, b]) == Parse(Parse(ParseAll(s, bytes), a), b)
  {
    assert (bytes + [a, b])[..|bytes| + 1] == bytes + [a];
    assert (bytes + [a])[..|bytes|] == bytes;
  }

  /**
   What the parser makes of one frame whose length byte is right: it is received exactly
   when both check bytes match, with the payload in the buffer; otherwise one error is
   counted and nothing is received.
   */
  lemma FrameVerdict(s: ParserState, p: seq<uint8>, a: uint8, b: uint8)
    requires s.status == Uninit && !s.received && 1 <= |p| <= 256
    ensures var s' := ParseAll(s, FrameWith(p, a, b));
            && s'.ovrn == s.ovrn
            && (s'.received <==> a == CheckA(p) && b == CheckB(p))
            && (s'.received ==> s'.err == s.err && s'.status == Uninit
                                && s'.payloadLen == ToUint8(|p|) && s'.payload[..|p|] == p)
            && (!s'.received ==> s'.err == ToUint8(s.err + 1)
                                 && s'.status == (if a != CheckA(p) && b == STX then GotStx else Uninit))
  {
    var f := FrameWith(p, a, b);
    var body := f[..2 + |p|];
    hide Parse, ParseAll, Inside, CheckA, CheckB, ToUint8;
    StartsInside(s, p);
    ParsesPayload(s, p, a, b, 2 + |p|);
    assert f == body + [a, b];
    ParseAllTwo(s, body, a, b);
    CheckBytes(ParseAll(s, body), p, a, b);
  }

  lemma StartsInside(s: ParserState, p: seq<uint8>)
    requires s.status == Uninit && !s.received && 1 <= |p| <= 256
    ensures Inside(s, p, 0)
  {
  }

  lemma CheckBytes(s: ParserState, p: seq<uint8>, a: uint8, b: uint8)
    requires Inside(s, p, 2 + |p|)
    ensures var s' := Parse(Parse(s, a), b);
            && s'.ovrn == s.ovrn
            && (s'.received <==> a == CheckA(p) && b == CheckB(p))
            && (s'.received ==> s'.err == s.err && s'.status == Uninit
                                && s'.payloadLen == ToUint8(|p|) && s'.payload[..|p|] == p)
            && (!s'.received ==> s'.err == ToUint8(s.err + 1)
                                 && s'.status == (if a != CheckA(p) && b == STX then GotStx else Uninit))
  {
    hide ToUint8, SumA, SumB;
    assert p[..|p|] == p;
  }

  /** The writer's frame is accepted, with payloads of 1 to 256 bytes; the length 256 shows as 0. */
  lemma FrameAccepted(s: ParserState, p: seq<uint8>)
    requires s.status == Uninit && !s.received && 1 <= |p| <= 256
    ensures var s' := ParseAll(s, Frame(p));
            && s'.received && s'.payloadLen == ToUint8(|p|) && s'.payload[..|p|] == p
            && s'.status == Uninit && s'.ovrn == s.ovrn && s'.err == s.err
  {
    FrameVerdict(s, p, CheckA(p), CheckB(p));
  }

  /** A frame that starts while a message is pending counts one overrun and one error. */
  lemma OverrunCounted(s: ParserState, c: uint8)
    requires s.status == Uninit && s.received
    ensures Parse(Parse(s, 0x99), c) == s.(ovrn := ToUint8(s.ovrn + 1), err := ToUint8(s.err + 1))
  {
  }

  // ---------------------------------------------------------------- corruption

  // The frame of p with its payload overwritten by q on the way
  function Corrupted(p: seq<uint8>, q: seq<uint8>): seq<uint8>
    requires |p| == |q|
  {
    FrameWith(q, CheckA(p), CheckB(p))
  }

  predicate Rejects(s: ParserState, bytes: seq<uint8>) {
    && !ParseAll(s, bytes).received
    && ParseAll(s, bytes).err == ToUint8(s.err + 1)
  }

  lemma ByteChangeRejected(s: ParserState, p: seq<uint8>, i: nat, v: uint8)
    requires s.status == Uninit && !s.received && 1 <= |p| <= 256
    requires i < |p| && v != p[i]
    ensures Rejects(s, Corrupted(p, p[i := v]))
  {
    RejectedIffSumsDiffer(s, p, p[i := v]);
    OneChangeNoticed(MsgLen(|p|), p, i, v);
  }

  lemma RejectedIffSumsDiffer(s: ParserState, p: seq<uint8>, q: seq<uint8>)
    requires s.status == Uninit && !s.received && 1 <= |p| <= 256 && |q| == |p|
    ensures Rejects(s, Corrupted(p, q)) <==> CheckA(p) != CheckA(q) || CheckB(p) != CheckB(q)
  {
    FrameVerdict(s, q, CheckA(p), CheckB(p));
  }

  /** Two changed payload bytes get through exactly when both sums cancel. */
  lemma TwoByteChangeVerdict(s: ParserState, p: seq<uint8>, i: nat, j: nat, v: uint8, w: uint8)
    requires s.status == Uninit && !s.received && 1 <= |p| <= 256
    requires i < j < |p|
    ensures !Rejects(s, Corrupted(p, p[i := v][j := w])) <==>
            ToUint8((v - p[i]) + (w - p[j])) == 0 && ToUint8((j - i) * (v - p[i])) == 0
  {
    RejectedIffSumsDiffer(s, p, p[i := v][j := w]);
    TwoChangesUnnoticed(MsgLen(|p|), MsgLen(|p|), p, i, j, v, w);
  }

  /** Two bytes at odd distance, one of them really changed. */
  lemma OddPairRejected(s: ParserState, p: seq<uint8>, i: nat, j: nat, v: uint8, w: uint8)
    requires s.status == Uninit && !s.received && 1 <= |p| <= 256
    requires i < j < |p| && (j - i) % 2 == 1 && v != p[i]
    ensures Rejects(s, Corrupted(p, p[i := v][j := w]))
  {
    RejectedIffSumsDiffer(s, p, p[i := v][j := w]);
    OddDistanceNoticed(MsgLen(|p|), MsgLen(|p|), p, i, j, v, w);
  }

  lemma SwapRejected(s: ParserState, p: seq<uint8>, i: nat)
    requires s.status == Uninit && !s.received && 1 <= |p| <= 256
    requires i + 1 < |p| && p[i] != p[i + 1]
    ensures Rejects(s, Corrupted(p, p[i := p[i + 1]][i + 1 := p[i]]))
  {
    OddPairRejected(s, p, i, i + 1, p[i + 1], p[i]);
  }
}

/** What the parser accepts of any byte stream. */
module PprzSoundness {
  import opened ByteStreams
  import opened CInts
  import opened Fletcher
  import opened PprzFormat
  import opened PprzParser

  function After(s: ParserState, es: seq<Event>): ParserState {
    if es == [] then s
    else
      var r := After(s, es[..|es| - 1]);
      match es[|es| - 1]
      case ByteIn(c) => Parse(r, c)
      case Handled => r.(received := false)
  }

  // A length of 0 is reached only after the index has wrapped
  function PayloadSize(len: uint8): nat {
    if len == 0 then PAYLOAD_LEN else len
  }

  // The length byte and the n payload bytes after it that have been stored
  function Stored(s: ParserState, n: nat): seq<uint8>
    requires n <= PAYLOAD_LEN
  {
    [MsgLen(s.payloadLen)] + s.payload[..n]
  }

  // They are the latest in the history, after the start byte, and in the sums
  predicate Holds(h: seq<uint8>, s: ParserState, n: nat)
    requires n <= PAYLOAD_LEN
  {
    var len := MsgLen(s.payloadLen);
    && EndsWith(h, [STX] + Stored(s, n))
    && s.ckA == SumA(len, s.payload[..n]) && s.ckB == SumB(len, len, s.payload[..n])
  }

  // The state is accounted for by the most recent bytes of the history
  predicate Explains(h: seq<uint8>, s: ParserState) {
    && (s.received ==> s.status in {Uninit, GotStx})
    && match s.status
       case Uninit => true
       case GotStx => EndsWith(h, [STX])
       case GotLength => s.idx < PayloadSize(s.payloadLen) && Holds(h, s, s.idx)
       case GotPayload => Holds(h, s, PayloadSize(s.payloadLen))
       case GotCrc1 =>
         var n, len := PayloadSize(s.payloadLen), MsgLen(s.payloadLen);
         && EndsWith(h, [STX] + Stored(s, n) + [s.ckA])
         && s.ckA == SumA(len, s.payload[..n]) && s.ckB == SumB(len, len, s.payload[..n])
  }

  lemma LengthKept(c: uint8)
    ensures MsgLen(ToUint8(c - 4)) == c
  {
  }

  lemma StartExplained(h: seq<uint8>, s: ParserState, c: uint8)
    requires Explains(h, s) && s.status in {Uninit, GotStx}
    ensures Explains(h + [c], Parse(s, c))
  {
    hide SumA, SumB, ToUint8, MsgLen, EndsWith;
    EndsWithNothing(h);
    EndsWithMore(h, if s.status == GotStx then [STX] else [], c);
    assert [] + [c] == [c];
    LengthKept(c);
    SumNothing(c, c);
    var s' := Parse(s, c);
    assert s'.payload[..0] == [];
    assert [STX] + ([c] + []) == [STX] + [c];
  }

  lemma NextIndex(s: ParserState)
    requires s.idx < PayloadSize(s.payloadLen)
    ensures var idx := ToUint8(s.idx + 1);
            if idx == s.payloadLen then PayloadSize(s.payloadLen) == s.idx + 1
            else idx == s.idx + 1 < PayloadSize(s.payloadLen)
  {
  }

  // One more byte stored
  lemma StoresByte(h: seq<uint8>, s: ParserState, c: uint8)
    requires s.status == GotLength && s.idx < PayloadSize(s.payloadLen) && Holds(h, s, s.idx)
    ensures Holds(h + [c], Parse(s, c), s.idx + 1)
    ensures Parse(s, c).payloadLen == s.payloadLen
  {
    hide SumA, SumB, ToUint8, MsgLen, EndsWith;
    var s', len := Parse(s, c), MsgLen(s.payloadLen);
    var n: nat := s.idx;
    assert s'.payload[..n + 1] == s.payload[..n] + [c];
    SumStep(len, len, s.payload[..n], c);
    EndsWithMore(h, [STX] + Stored(s, n), c);
    assert [STX] + Stored(s, n) + [c] == [STX] + Stored(s', n + 1);
  }

  lemma PayloadExplained(h: seq<uint8>, s: ParserState, c: uint8)
    requires Explains(h, s) && s.status == GotLength
    ensures Explains(h + [c], Parse(s, c))
  {
    hide SumA, SumB, ToUint8, MsgLen, EndsWith, Holds;
    NextIndex(s);
    StoresByte(h, s, c);
    var s' := Parse(s, c);
    assert Holds(h + [c], s', if s'.status == GotPayload then PayloadSize(s'.payloadLen) else s'.idx);
  }

  lemma CheckExplained(h: seq<uint8>, s: ParserState, c: uint8)
    requires Explains(h, s) && s.status in {GotPayload, GotCrc1}
    ensures Explains(h + [c], Parse(s, c))
  {
    hide SumA, SumB, ToUint8, MsgLen, EndsWith;
    EndsWithMore(h, [STX] + Stored(s, PayloadSize(s.payloadLen)), c);
  }

  lemma ByteExplained(h: seq<uint8>, s: ParserState, c: uint8)
    requires Explains(h, s)
    ensures Explains(h + [c], Parse(s, c))
  {
    hide Explains, Parse;
    match s.status
    case Uninit => StartExplained(h, s, c);
    case GotStx => StartExplained(h, s, c);
    case GotLength => PayloadExplained(h, s, c);
    case GotPayload => CheckExplained(h, s, c);
    case GotCrc1 => CheckExplained(h, s, c);
  }

  lemma {:induction false} AlwaysExplained(s0: ParserState, es: seq<Event>)
    requires s0.status == Uninit && !s0.received
    ensures Explains(History(es), After(s0, es))
  {
    if es != [] {
      hide Parse, Holds, Stored;
      var front, e := es[..|es| - 1], es[|es| - 1];
      AlwaysExplained(s0, front);
      match e
      case ByteIn(c) => ByteExplained(History(front), After(s0, front), c);
      case Handled => assert History(es) == History(front);
    }
  }

  /**
   Soundness over any byte stream, with messages handled at any time: the flag goes up only
   when the bytes just read are the frame of some payload of 1 to 256 bytes, length and sums
   included, and then the buffer holds that payload.
   */
  lemma ReceivedOnlyFrames(s0: ParserState, es: seq<Event>, c: uint8)
    requires s0.status == Uninit && !s0.received
    ensures var s, s' := After(s0, es), Parse(After(s0, es), c);
            s'.received && !s.received ==>
              EndsWith(History(es) + [c], Frame(s'.payload[..PayloadSize(s'.payloadLen)]))
  {
    hide SumA, SumB, ToUint8, MsgLen, EndsWith;
    AlwaysExplained(s0, es);
    var h, s := History(es), After(s0, es);
    var s', n := Parse(s, c), PayloadSize(s.payloadLen);
    if s'.received && !s.received {
      assert s.status == GotCrc1 && c == s.ckB;
      var t, p := [STX] + Stored(s, n) + [s.ckA], s.payload[..n];
      EndsWithMore(h, t, c);
      SizeSaysLength(s.payloadLen);
      assert t + [c] == Frame(p);
    }
  }

  lemma SizeSaysLength(len: uint8)
    ensures MsgLen(PayloadSize(len)) == MsgLen(len)
  {
  }

  lemma {:induction false} PendingStays(s: ParserState, bytes: seq<uint8>)
    requires s.received && s.status in {Uninit, GotStx}
    ensures var s' := ParseAll(s, bytes);
            && s'.received && s'.status in {Uninit, GotStx}
            && s'.payloadLen == s.payloadLen && s'.payload == s.payload
  {
    if bytes != [] {
      hide ToUint8;
      PendingStays(s, bytes[..|bytes| - 1]);
    }
  }

  /** While a message is pending no bytes change its length or payload. */
  lemma PendingUntouched(s0: ParserState, es: seq<Event>, bytes: seq<uint8>)
    requires s0.status == Uninit && !s0.received && After(s0, es).received
    ensures var s, s' := After(s0, es), ParseAll(After(s0, es), bytes);
            s'.received && s'.payloadLen == s.payloadLen && s'.payload == s.payload
  {
    hide Parse, Holds, Stored;
    AlwaysExplained(s0, es);
    PendingStays(After(s0, es), bytes);
  }
}

/** Bytes from the UART through the parser into the datalink buffer. */
module Datalink {
  import opened CInts
  import opened PprzFormat
  import opened PprzParser

  const MSG_SIZE := 128

  type DlBuffer = b: seq<uint8> | |b| == MSG_SIZE witness seq(MSG_SIZE, i => 0)

  /** fifo: received and not yet parsed; handled: the buffer at each call of the message handler. */
  datatype DatalinkState = DatalinkState(
    parser: ParserState, fifo: seq<uint8>, dlBuffer: DlBuffer, dlMsgAvailable: bool,
    handled: seq<DlBuffer>)

  function ReadBuffer(s: ParserState, fifo: seq<uint8>): (r: (ParserState, seq<uint8>))
    decreases |fifo|
  {
    if fifo == [] || s.received then (s, fifo) else ReadBuffer(Parse(s, fifo[0]), fifo[1..])
  }

  // What must hold for the copy to stay inside the datalink buffer
  predicate InBounds(d: DatalinkState) {
    var s := ReadBuffer(d.parser, d.fifo).0;
    s.received ==> s.payloadLen <= MSG_SIZE
  }

  function Receive(d: DatalinkState): DatalinkState
    requires InBounds(d)
  {
    var (s, rest) := ReadBuffer(d.parser, d.fifo);
    if d.fifo != [] && s.received then
      d.(parser := s.(received := false), fifo := rest, dlMsgAvailable := true,
         dlBuffer := s.payload[..s.payloadLen] + d.dlBuffer[s.payloadLen..])
    else d.(parser := s, fifo := rest)
  }

  function Handle(d: DatalinkState): DatalinkState {
    if d.dlMsgAvailable then d.(dlMsgAvailable := false, handled := d.handled + [d.dlBuffer]) else d
  }

  function Event(d: DatalinkState): DatalinkState
    requires InBounds(d)
  {
    Handle(Receive(d))
  }

  /** The event macro and its buffers. */
  class Link {
    const parser: Parser
    var fifo: seq<uint8>
    const dlBuffer: array<uint8>
    var dlMsgAvailable: bool
    var handled: seq<DlBuffer>

    ghost predicate Valid() {
      parser.Valid() && dlBuffer.Length == MSG_SIZE && dlBuffer != parser.payload
    }

    ghost function Model(): DatalinkState
      requires Valid()
      reads this, dlBuffer, parser, parser.payload
    {
      DatalinkState(parser.Model(), fifo, dlBuffer[..], dlMsgAvailable, handled)
    }

    constructor ()
      ensures Valid() && fresh(parser) && fresh(parser.payload) && fresh(dlBuffer)
      ensures Model().parser.status == Uninit && !parser.received
      ensures fifo == [] && handled == [] && !dlMsgAvailable
    {
      parser := new Parser();
      dlBuffer := new uint8[MSG_SIZE];
      fifo, handled, dlMsgAvailable := [], [], false;
    }

    method ReadPprzBuffer()
      requires Valid()
      modifies this`fifo, parser, parser.payload
      ensures (parser.Model(), fifo) == ReadBuffer(old(parser.Model()), old(fifo))
    {
      while fifo != [] && !parser.received
        invariant ReadBuffer(parser.Model(), fifo) == ReadBuffer(old(parser.Model()), old(fifo))
        decreases |fifo|
      {
        var c := fifo[0];
        fifo := fifo[1..];
        parser.ParsePprz(c);
      }
    }

    method PprzParsePayload()
      requires Valid() && parser.payloadLen <= MSG_SIZE
      modifies dlBuffer, this`dlMsgAvailable
      ensures dlMsgAvailable
      ensures var n := parser.payloadLen;
              dlBuffer[..] == parser.payload[..n] + old(dlBuffer[..])[n..]
    {
      var i: uint8 := 0;
      while i < parser.payloadLen
        invariant i <= parser.payloadLen
        invariant dlBuffer[..i] == parser.payload[..i]
        invariant dlBuffer[i..] == old(dlBuffer[i..])
      {
        dlBuffer[i] := parser.payload[i];
        i := i + 1;
      }
      dlMsgAvailable := true;
      assert dlBuffer[..] == dlBuffer[..i] + dlBuffer[i..];
      assert old(dlBuffer[..])[i..] == old(dlBuffer[i..]);
    }

    method DatalinkEvent()
      requires Valid() && InBounds(Model())
      modifies this, dlBuffer, parser, parser.payload
      ensures Model() == Event(old(Model()))
    {
      hide Parse, ReadBuffer;
      if fifo != [] {
        ReadPprzBuffer();
        if parser.received {
          PprzParsePayload();
          parser.received := false;
        }
      } else {
        EmptyFifo(parser.Model());
      }
      assert Model() == Receive(old(Model()));
      if dlMsgAvailable {
        handled := handled + [dlBuffer[..]];
        dlMsgAvailable := false;
      }
    }
  }

  lemma EmptyFifo(s: ParserState)
    ensures ReadBuffer(s, []) == (s, [])
  {
  }

  // ---------------------------------------------------------------- the stream

  /** A payload and the idle bytes before its frame. */
  datatype Segment = Segment(gap: seq<uint8>, payload: seq<uint8>)

  predicate Sendable(g: Segment) {
    STX !in g.gap && 1 <= |g.payload| <= 255
  }

  function Bytes(g: Segment): seq<uint8> {
    g.gap + Frame(g.payload)
  }

  function Stream(gs: seq<Segment>, tail: seq<uint8>): seq<uint8> {
    if gs == [] then tail else Bytes(gs[0]) + Stream(gs[1..], tail)
  }

  // rest is what remains of the stream after d segments and k bytes of the next
  predicate Remaining(rest: seq<uint8>, gs: seq<Segment>, tail: seq<uint8>, d: nat, k: nat) {
    if d < |gs| then k < |Bytes(gs[d])| && rest == Bytes(gs[d])[k..] + Stream(gs[d + 1..], tail)
    else d == |gs| && k <= |tail| && rest == tail[k..]
  }

  // The parser has seen k bytes of the segment
  predicate At(s: ParserState, gs: seq<Segment>, d: nat, k: nat) {
    if d < |gs| && k > |gs[d].gap| then Inside(s, gs[d].payload, k - |gs[d].gap|)
    else s.status == Uninit && !s.received
  }

  predicate Tracks(s: ParserState, rest: seq<uint8>, gs: seq<Segment>, tail: seq<uint8>, d: nat, k: nat) {
    Remaining(rest, gs, tail, d, k) && At(s, gs, d, k)
  }

  predicate WellFormed(gs: seq<Segment>, tail: seq<uint8>) {
    (forall g :: g in gs ==> Sendable(g)) && STX !in tail
  }

  // Every payload fits the datalink buffer
  predicate Fitting(gs: seq<Segment>) {
    forall g :: g in gs ==> |g.payload| <= MSG_SIZE
  }

  predicate NoErrors(s: ParserState, s': ParserState) {
    s'.ovrn == s.ovrn && s'.err == s.err
  }

  // The message handler was given this payload
  predicate Carries(b: DlBuffer, p: seq<uint8>) {
    |p| <= MSG_SIZE && b[..|p|] == p
  }

  lemma SegmentBoundary(rest: seq<uint8>, gs: seq<Segment>, tail: seq<uint8>, d: nat)
    requires d < |gs| && rest == Stream(gs[d + 1..], tail)
    ensures Remaining(rest, gs, tail, d + 1, 0)
  {
    if d + 1 < |gs| {
      assert gs[d + 1..][1..] == gs[d + 2..];
    }
  }

  // One byte further in the stream: at most the last byte of a frame completes a message
  lemma ByteStep(s: ParserState, rest: seq<uint8>, gs: seq<Segment>, tail: seq<uint8>, d: nat, k: nat)
    requires WellFormed(gs, tail) && Tracks(s, rest, gs, tail, d, k) && rest != []
    ensures var s' := Parse(s, rest[0]);
            && NoErrors(s, s')
            && if d < |gs| && k + 1 == |Bytes(gs[d])| then
                 && s'.received && s'.status == Uninit
                 && s'.payloadLen == |gs[d].payload|
                 && s'.payload[..s'.payloadLen] == gs[d].payload
                 && Remaining(rest[1..], gs, tail, d + 1, 0)
               else Tracks(s', rest[1..], gs, tail, d, k + 1)
  {
    if d < |gs| {
      assert gs[d] in gs;
      SegmentStep(s, gs[d], k);
      var b := Bytes(gs[d]);
      assert rest[0] == b[k];
      assert rest[1..] == b[k + 1..] + Stream(gs[d + 1..], tail);
      if k + 1 == |b| {
        assert b[k + 1..] == [];
        SegmentBoundary(rest[1..], gs, tail, d);
      }
    } else {
      assert rest[0] == tail[k] && tail[k] in tail;
    }
  }

  lemma SegmentStep(s: ParserState, g: Segment, k: nat)
    requires Sendable(g) && k < |Bytes(g)|
    requires At(s, [g], 0, k)
    ensures var s' := Parse(s, Bytes(g)[k]);
            && NoErrors(s, s')
            && if k + 1 == |Bytes(g)| then
                 && s'.received && s'.status == Uninit
                 && s'.payloadLen == |g.payload|
                 && s'.payload[..s'.payloadLen] == g.payload
               else At(s', [g], 0, k + 1)
  {
    var p, n := g.payload, |g.gap|;
    var c := Bytes(g)[k];
    if k < n {
      assert c == g.gap[k] && g.gap[k] in g.gap;
    } else if k < n + 2 + |p| {
      assert c == Frame(p)[k - n] == FrameWith(p, 0, 0)[k - n];
      InsideStep(s, p, k - n, c);
    } else {
      assert p[..|p|] == p;
      assert c == Frame(p)[k - n];
    }
  }

  /** Reading stops with the fifo empty or with the next payload received, and counts no error. */
  lemma {:induction false} ReadTracks(s: ParserState, fifo: seq<uint8>, line: seq<uint8>,
                                     gs: seq<Segment>, tail: seq<uint8>, d: nat, k: nat) returns (k': nat)
    requires WellFormed(gs, tail) && Tracks(s, fifo + line, gs, tail, d, k)
    ensures var (s', rest) := ReadBuffer(s, fifo);
            && NoErrors(s, s')
            && if s'.received then
                 && d < |gs|
                 && s'.status == Uninit
                 && s'.payloadLen == |gs[d].payload|
                 && s'.payload[..s'.payloadLen] == gs[d].payload
                 && Remaining(rest + line, gs, tail, d + 1, 0)
               else rest == [] && Tracks(s', line, gs, tail, d, k')
    decreases |fifo|
  {
    k' := k;
    if fifo == [] {
      assert fifo + line == line;
    } else {
      ByteStep(s, fifo + line, gs, tail, d, k);
      assert (fifo + line)[0] == fifo[0] && (fifo + line)[1..] == fifo[1..] + line;
      assert !s.received;
      hide Parse, At, Remaining;
      var s' := Parse(s, fifo[0]);
      if !s'.received {
        k' := ReadTracks(s', fifo[1..], line, gs, tail, d, k + 1);
      }
    }
  }

  // ---------------------------------------------------------------- runs

  /** line: what the other end has still to send. */
  datatype System = System(line: seq<uint8>, link: DatalinkState)

  datatype Step = ByteArrives | Poll

  predicate Init(s: System, gs: seq<Segment>, tail: seq<uint8>) {
    && s.line == Stream(gs, tail)
    && s.link.parser.status == Uninit && !s.link.parser.received
    && s.link.fifo == [] && s.link.handled == [] && !s.link.dlMsgAvailable
  }

  predicate Next(s: System, e: Step, s': System) {
    match e
    case ByteArrives =>
      s.line != [] && s' == System(s.line[1..], s.link.(fifo := s.link.fifo + [s.line[0]]))
    case Poll =>
      InBounds(s.link) && s' == s.(link := Event(s.link))
  }

  predicate Run(states: seq<System>, steps: seq<Step>, gs: seq<Segment>, tail: seq<uint8>) {
    && |states| == |steps| + 1
    && Init(states[0], gs, tail)
    && forall i :: 0 <= i < |steps| ==> Next(states[i], steps[i], states[i + 1])
  }

  predicate HandledSoFar(handled: seq<DlBuffer>, gs: seq<Segment>) {
    && |handled| <= |gs|
    && forall i :: 0 <= i < |handled| ==> Carries(handled[i], gs[i].payload)
  }

  ghost predicate Inv(s: System, s0: ParserState, gs: seq<Segment>, tail: seq<uint8>) {
    && !s.link.dlMsgAvailable
    && HandledSoFar(s.link.handled, gs)
    && NoErrors(s0, s.link.parser)
    && exists k: nat :: Tracks(s.link.parser, s.link.fifo + s.line, gs, tail, |s.link.handled|, k)
  }

  lemma InitInv(s: System, gs: seq<Segment>, tail: seq<uint8>)
    requires Init(s, gs, tail)
    ensures Inv(s, s.link.parser, gs, tail)
  {
    assert s.link.fifo + s.line == s.line;
    assert Tracks(s.link.parser, s.line, gs, tail, 0, 0);
  }

  lemma ArrivalInv(s: System, s': System, s0: ParserState, gs: seq<Segment>, tail: seq<uint8>)
    requires Inv(s, s0, gs, tail) && Next(s, ByteArrives, s')
    ensures Inv(s', s0, gs, tail)
  {
    assert s'.link.fifo + s'.line == s.link.fifo + s.line;
  }

  /**
   What a poll asks for, at any point of any stream of frames: the copy stays in the datalink
   buffer exactly when the payload just received, the next one in order, has at most 128 bytes.
   */
  lemma PollInBoundsIff(s: System, s0: ParserState, gs: seq<Segment>, tail: seq<uint8>)
    requires WellFormed(gs, tail) && Inv(s, s0, gs, tail)
    ensures var d := |s.link.handled|;
            if ReadBuffer(s.link.parser, s.link.fifo).0.received then
              d < |gs| && (InBounds(s.link) <==> |gs[d].payload| <= 128)
            else InBounds(s.link)
  {
    var l, d := s.link, |s.link.handled|;
    var k: nat :| Tracks(l.parser, l.fifo + s.line, gs, tail, d, k);
    var k' := ReadTracks(l.parser, l.fifo, s.line, gs, tail, d, k);
    hide ReadBuffer, Remaining, WellFormed;
  }

  /** A poll changes no byte of the datalink buffer behind the payload it copies. */
  lemma RestOfBuffer(d: DatalinkState, i: nat)
    requires InBounds(d) && i < 128
    requires var s := ReadBuffer(d.parser, d.fifo).0; d.fifo == [] || !s.received || i >= s.payloadLen
    ensures Event(d).dlBuffer[i] == d.dlBuffer[i]
  {
    hide ReadBuffer;
  }

  // A poll in bounds keeps the invariant, and empties the fifo or hands on one message
  lemma PollInv(s: System, s0: ParserState, gs: seq<Segment>, tail: seq<uint8>)
    requires WellFormed(gs, tail) && Inv(s, s0, gs, tail) && InBounds(s.link)
    ensures var s' := s.(link := Event(s.link));
            && Inv(s', s0, gs, tail)
            && if s'.link.fifo == [] then |s.link.handled| <= |s'.link.handled|
               else |s'.link.handled| == |s.link.handled| + 1
  {
    PollInBoundsIff(s, s0, gs, tail);
    var l, d := s.link, |s.link.handled|;
    var k: nat :| Tracks(l.parser, l.fifo + s.line, gs, tail, d, k);
    var k' := ReadTracks(l.parser, l.fifo, s.line, gs, tail, d, k);
    NotReceived(l.parser, gs, d, k);
    EmptyFifo(l.parser);
    hide ReadBuffer, Remaining, WellFormed;
    var (p, rest) := ReadBuffer(l.parser, l.fifo);
    if p.received {
      assert l.fifo != [];
      assert Tracks(p.(received := false), rest + s.line, gs, tail, d + 1, 0);
      var e := Event(l);
      assert e.handled == l.handled + [e.dlBuffer];
      assert e.dlBuffer[..|gs[d].payload|] == gs[d].payload;
    } else {
      assert [] + s.line == s.line;
    }
  }

  lemma NotReceived(s: ParserState, gs: seq<Segment>, d: nat, k: nat)
    requires At(s, gs, d, k)
    ensures !s.received
  {
  }

  lemma {:induction false} RunInv(states: seq<System>, steps: seq<Step>,
                                 gs: seq<Segment>, tail: seq<uint8>, n: nat)
    requires WellFormed(gs, tail) && Run(states, steps, gs, tail) && n < |states|
    ensures Inv(states[n], states[0].link.parser, gs, tail)
  {
    if n == 0 {
      InitInv(states[0], gs, tail);
    } else {
      RunInv(states, steps, gs, tail, n - 1);
      var s0, s := states[0].link.parser, states[n - 1];
      assert Next(s, steps[n - 1], states[n]);
      if steps[n - 1] == Poll {
        PollInv(s, s0, gs, tail);
      } else {
        ArrivalInv(s, states[n], s0, gs, tail);
      }
    }
  }

  /**
   At every point of every run, however arrivals and polls interleave: the message handler
   was given an initial part of the payloads, in order and each once; the overrun and error
   counters have not moved; the next poll stays inside the datalink buffer if every payload
   fits it; and nothing is missing once line and fifo are empty.
   */
  lemma StreamDelivered(states: seq<System>, steps: seq<Step>,
                        gs: seq<Segment>, tail: seq<uint8>, n: nat)
    requires WellFormed(gs, tail) && Run(states, steps, gs, tail) && n < |states|
    ensures var l := states[n].link;
            && HandledSoFar(l.handled, gs)
            && NoErrors(states[0].link.parser, l.parser)
            && (Fitting(gs) ==> InBounds(l))
            && (states[n].line == [] && l.fifo == [] ==> |l.handled| == |gs|)
  {
    RunInv(states, steps, gs, tail, n);
    PollInBoundsIff(states[n], states[0].link.parser, gs, tail);
    hide ReadBuffer, InBounds;
  }

  lemma {:induction false} PollsProgress(states: seq<System>, steps: seq<Step>,
                                        gs: seq<Segment>, tail: seq<uint8>, n: nat, j: nat)
    requires WellFormed(gs, tail) && Run(states, steps, gs, tail) && n + j <= |steps|
    requires forall i :: n <= i < n + j ==> steps[i] == Poll
    ensures states[n + j].line == states[n].line
    ensures |states[n + j].link.handled| <= |gs|
    ensures (j > 0 && states[n + j].link.fifo == [])
            || |states[n + j].link.handled| >= |states[n].link.handled| + j
  {
    hide Event, Next, Init, WellFormed;
    HandledAtMost(states, steps, gs, tail, n + j);
    if j > 0 {
      PollsProgress(states, steps, gs, tail, n, j - 1);
      PollStep(states, steps, gs, tail, n + j - 1);
    }
  }

  lemma HandledAtMost(states: seq<System>, steps: seq<Step>, gs: seq<Segment>, tail: seq<uint8>, n: nat)
    requires WellFormed(gs, tail) && Run(states, steps, gs, tail) && n < |states|
    ensures |states[n].link.handled| <= |gs|
  {
    RunInv(states, steps, gs, tail, n);
  }

  lemma PollStep(states: seq<System>, steps: seq<Step>, gs: seq<Segment>, tail: seq<uint8>, i: nat)
    requires WellFormed(gs, tail) && Run(states, steps, gs, tail) && i < |steps| && steps[i] == Poll
    ensures states[i + 1].line == states[i].line
    ensures |states[i + 1].link.handled| >= |states[i].link.handled|
    ensures states[i + 1].link.fifo == []
            || (states[i].link.fifo != []
                && |states[i + 1].link.handled| == |states[i].link.handled| + 1)
  {
    hide ReadBuffer, Tracks, NoErrors, HandledSoFar;
    RunInv(states, steps, gs, tail, i);
    assert Next(states[i], steps[i], states[i + 1]);
    PollInv(states[i], states[0].link.parser, gs, tail);
    EmptyFifo(states[i].link.parser);
  }

  /** Once everything has arrived, as many polls as messages are outstanding hand them all on. */
  lemma PollsDrain(states: seq<System>, steps: seq<Step>, gs: seq<Segment>, tail: seq<uint8>, n: nat)
    requires WellFormed(gs, tail) && Run(states, steps, gs, tail) && n < |states|
    requires states[n].line == [] && |states[n].link.handled| <= |gs|
    requires |steps| == n + (|gs| - |states[n].link.handled|)
    requires forall i :: n <= i < |steps| ==> steps[i] == Poll
    ensures |states[|steps|].link.handled| == |gs|
    ensures forall i :: 0 <= i < |gs| ==> Carries(states[|steps|].link.handled[i], gs[i].payload)
  {
    PollsProgress(states, steps, gs, tail, n, |steps| - n);
    StreamDelivered(states, steps, gs, tail, |steps|);
  }

  // ---------------------------------------------------------------- when every poll is in bounds

  // No run from here ever comes to a poll that copies past the datalink buffer
  ghost predicate AlwaysInBounds(s: System, gs: seq<Segment>, tail: seq<uint8>) {
    forall states: seq<System>, steps: seq<Step>, n: nat ::
      Run(states, steps, gs, tail) && states[0] == s && n < |states| ==> InBounds(states[n].link)
  }

  lemma Extended(states: seq<System>, steps: seq<Step>, gs: seq<Segment>, tail: seq<uint8>,
                 e: Step, s: System)
    requires Run(states, steps, gs, tail) && Next(states[|steps|], e, s)
    ensures Run(states + [s], steps + [e], gs, tail)
  {
    hide Next;
    var states', steps' := states + [s], steps + [e];
    forall i | 0 <= i < |steps'| ensures Next(states'[i], steps'[i], states'[i + 1]) {
    }
  }

  // Letting k bytes arrive without a poll
  lemma {:induction false} Arrivals(s: System, gs: seq<Segment>, tail: seq<uint8>, k: nat)
      returns (states: seq<System>, steps: seq<Step>)
    requires Init(s, gs, tail) && k <= |s.line|
    ensures Run(states, steps, gs, tail) && |steps| == k
    ensures states[0] == s && states[k].line == s.line[k..] && states[k].link.handled == []
  {
    if k == 0 {
      states, steps := [s], [];
    } else {
      states, steps := Arrivals(s, gs, tail, k - 1);
      var l := states[k - 1];
      var l' := System(l.line[1..], l.link.(fifo := l.link.fifo + [l.line[0]]));
      Extended(states, steps, gs, tail, ByteArrives, l');
      states, steps := states + [l'], steps + [ByteArrives];
    }
  }

  // Polling j times after everything has arrived, as long as every poll is in bounds
  lemma {:induction false} Polls(s: System, gs: seq<Segment>, tail: seq<uint8>, j: nat)
      returns (states: seq<System>, steps: seq<Step>)
    requires Init(s, gs, tail) && AlwaysInBounds(s, gs, tail)
    ensures var n := |s.line|;
            && Run(states, steps, gs, tail) && |steps| == n + j && states[0] == s
            && states[n].line == [] && states[n].link.handled == []
            && forall i :: n <= i < n + j ==> steps[i] == Poll
  {
    var n := |s.line|;
    if j == 0 {
      states, steps := Arrivals(s, gs, tail, n);
    } else {
      states, steps := Polls(s, gs, tail, j - 1);
      var l := states[n + j - 1];
      assert InBounds(l.link);
      var l' := l.(link := Event(l.link));
      Extended(states, steps, gs, tail, Poll, l');
      states, steps := states + [l'], steps + [Poll];
    }
  }

  /** Every poll of every run stays in the datalink buffer exactly when every payload fits it. */
  lemma AlwaysInBoundsIff(s: System, gs: seq<Segment>, tail: seq<uint8>)
    requires WellFormed(gs, tail) && Init(s, gs, tail)
    ensures AlwaysInBounds(s, gs, tail) <==> Fitting(gs)
  {
    if Fitting(gs) {
      forall states: seq<System>, steps: seq<Step>, n: nat |
        Run(states, steps, gs, tail) && states[0] == s && n < |states|
        ensures InBounds(states[n].link)
      {
        StreamDelivered(states, steps, gs, tail, n);
      }
    }
    if AlwaysInBounds(s, gs, tail) {
      hide AlwaysInBounds, Run, WellFormed, Init;
      var states, steps := Polls(s, gs, tail, |gs|);
      PollsDrain(states, steps, gs, tail, |s.line|);
      AllFit(states[|steps|].link.handled, gs);
    }
  }

  lemma AllFit(handled: seq<DlBuffer>, gs: seq<Segment>)
    requires |handled| == |gs| && forall i :: 0 <= i < |gs| ==> Carries(handled[i], gs[i].payload)
    ensures Fitting(gs)
  {
  }
}
