/**
 The UBX protocol of the GPS receiver: two sync bytes, class, id, little-endian length,
 payload, and the Fletcher sums of everything between the sync bytes and the sums.
 */
module UbxFormat {
  import opened CInts
  import opened Fletcher

  const SYNC1: uint8 := 0xB5
  const SYNC2: uint8 := 0x62
  const MAX_PAYLOAD := 255

  function Low(n: uint16): uint8 { n % 0x100 }

  function High(n: uint16): uint8 { n / 0x100 }

  function Body(cls: uint8, id: uint8, len: uint16, p: seq<uint8>): seq<uint8> {
    [cls, id, Low(len), High(len)] + p
  }

  function FrameWith(body: seq<uint8>, a: uint8, b: uint8): seq<uint8> {
    [SYNC1, SYNC2] + body + [a, b]
  }

  function Summed(body: seq<uint8>): seq<uint8> {
    FrameWith(body, SumA(0, body), SumB(0, 0, body))
  }

  function Frame(cls: uint8, id: uint8, p: seq<uint8>): seq<uint8>
    requires |p| < 0x1_0000
  {
    Summed(Body(cls, id, |p|, p))
  }

  /** The frame byte by byte; the sums cover everything between the sync bytes and them. */
  lemma FrameBytes(cls: uint8, id: uint8, p: seq<uint8>)
    requires |p| < 0x1_0000
    ensures var f, n := Frame(cls, id, p), |p|;
            && |f| == n + 8
            && f[0] == 0xB5 && f[1] == 0x62 && f[2] == cls && f[3] == id
            && f[4] as int + 256 * (f[5] as int) == n && f[6..6 + n] == p
            && f[6 + n] == ToUint8(Total(f[2..6 + n]))
            && f[7 + n] == ToUint8(Weighted(f[2..6 + n]))
  {
    hide SumA, SumB, Total, Weighted, ToUint8, Low, High;
    var body := Body(cls, id, |p|, p);
    assert Frame(cls, id, p)[2..6 + |p|] == body;
    LengthIs(|p|);
    ClosedForms(0, 0, body);
  }

  lemma LengthIs(len: uint16)
    ensures Low(len) as int + 0x100 * (High(len) as int) == len
  {
  }

  /** The sending macros. */
  class Writer {
    var sendCkA: uint8
    var sendCkB: uint8
    var out: seq<uint8>

    constructor ()
      ensures out == []
    {
      out, sendCkA, sendCkB := [], 0, 0;
    }

    // The bytes of body have gone out after the sync bytes and are in the sums
    ghost predicate Sending(before: seq<uint8>, body: seq<uint8>)
      reads this
    {
      && out == before + [SYNC1, SYNC2] + body
      && sendCkA == SumA(0, body)
      && sendCkB == SumB(0, 0, body)
    }

    method Send1(c: uint8, ghost before: seq<uint8>, ghost body: seq<uint8>)
      requires Sending(before, body)
      modifies this
      ensures Sending(before, body + [c])
    {
      SumStep(0, 0, body, c);
      out := out + [c];
      sendCkA := ToUint8(sendCkA + c);
      sendCkB := ToUint8(sendCkB + sendCkA);
      assert before + [SYNC1, SYNC2] + body + [c] == before + [SYNC1, SYNC2] + (body + [c]);
    }

    method Send2(c: uint16, ghost before: seq<uint8>, ghost body: seq<uint8>)
      requires Sending(before, body)
      modifies this
      ensures Sending(before, body + [Low(c), High(c)])
    {
      Send1(c % 0x100, before, body);
      Send1(c / 0x100, before, body + [Low(c)]);
      assert body + [Low(c)] + [High(c)] == body + [Low(c), High(c)];
    }

    method Header(cls: uint8, id: uint8, len: uint16)
      modifies this
      ensures Sending(old(out), Body(cls, id, len, []))
    {
      ghost var before := out;
      out := out + [SYNC1];
      out := out + [SYNC2];
      sendCkA, sendCkB := 0, 0;
      assert out == before + [SYNC1, SYNC2] + [];
      hide SumA, SumB;
      Send1(cls, before, []);
      Send1(id, before, [] + [cls]);
      Send2(len, before, [] + [cls] + [id]);
      assert [] + [cls] + [id] + [Low(len), High(len)] == Body(cls, id, len, []);
    }

    method Trailer(ghost before: seq<uint8>, ghost body: seq<uint8>)
      requires Sending(before, body)
      modifies this
      ensures out == before + Summed(body)
    {
      out := out + [sendCkA];
      out := out + [sendCkB];
      assert out == before + Summed(body);
    }

    /** What a generated send macro expands to: header, one send for every byte, trailer. */
    method Send(cls: uint8, id: uint8, payload: seq<uint8>)
      requires |payload| < 0x1_0000
      modifies this
      ensures out == old(out) + Frame(cls, id, payload)
    {
      hide SumA, SumB, Low, High;
      ghost var before := out;
      Header(cls, id, |payload|);
      for i := 0 to |payload|
        invariant Sending(before, Body(cls, id, |payload|, payload[..i]))
      {
        Send1(payload[i], before, Body(cls, id, |payload|, payload[..i]));
        assert Body(cls, id, |payload|, payload[..i]) + [payload[i]]
            == Body(cls, id, |payload|, payload[..i + 1]);
      }
      assert payload[..|payload|] == payload;
      Trailer(before, Body(cls, id, |payload|, payload));
    }
  }
}

/** The byte-at-a-time parser of GPS messages. */
module UbxParser {
  import opened ByteStreams
  import opened CInts
  import opened Fletcher
  import opened UbxFormat

  datatype Status =
    | Uninit | GotSync1 | GotSync2 | GotClass | GotId | GotLen1 | GotLen2 | GotPayload | GotChecksum1

  type MsgBuffer = b: seq<uint8> | |b| == MAX_PAYLOAD witness seq(MAX_PAYLOAD, i => 0)

  datatype UbxState = UbxState(
    status: Status, idx: uint8, ckA: uint8, ckB: uint8,
    cls: uint8, id: uint8, len: uint16, buf: MsgBuffer, received: bool, ovrn: uint8)

  // The parser reads at least one payload byte
  function PayloadSize(len: uint16): uint16 {
    if len == 0 then 1 else len
  }

  /** What the parser relies on when it stores a byte or completes the length. */
  predicate Bounded(s: UbxState) {
    && (s.status == GotLen1 ==> s.len < 0x100)
    && (s.status == GotLen2 ==> s.len <= MAX_PAYLOAD && s.idx < PayloadSize(s.len))
    && (s.status == GotPayload || s.status == GotChecksum1 ==>
          s.len <= MAX_PAYLOAD && s.idx == PayloadSize(s.len))
  }

  predicate Summing(t: Status) {
    t != GotPayload && t != GotChecksum1
  }

  function AddToSums(s: UbxState, c: uint8): UbxState {
    if Summing(s.status) then
      var a := ToUint8(s.ckA + c);
      s.(ckA := a, ckB := ToUint8(s.ckB + a))
    else s
  }

  function Restart(s: UbxState): UbxState {
    s.(status := Uninit)
  }

  function Dispatch(s: UbxState, c: uint8): UbxState
    requires Bounded(s)
  {
    match s.status
    case Uninit => if c == SYNC1 then s.(status := GotSync1) else s
    case GotSync1 =>
      if c != SYNC2 then Restart(s) else s.(ckA := 0, ckB := 0, status := GotSync2)
    case GotSync2 =>
      if s.received then Restart(s.(ovrn := ToUint8(s.ovrn + 1)))
      else s.(cls := c, status := GotClass)
    case GotClass => s.(id := c, status := GotId)
    case GotId => s.(len := c, status := GotLen1)
    case GotLen1 =>
      var len := s.len + 0x100 * c;
      if len > MAX_PAYLOAD then Restart(s.(len := len))
      else s.(len := len, idx := 0, status := GotLen2)
    case GotLen2 =>
      var idx := ToUint8(s.idx + 1);
      s.(buf := s.buf[s.idx := c], idx := idx, status := if idx >= s.len then GotPayload else GotLen2)
    case GotPayload => if c != s.ckA then Restart(s) else s.(status := GotChecksum1)
    case GotChecksum1 => if c != s.ckB then Restart(s) else Restart(s.(received := true))
  }

  function Parse(s: UbxState, c: uint8): (r: UbxState)
    requires Bounded(s)
    ensures Bounded(r)
  {
    Dispatch(AddToSums(s, c), c)
  }

  /** The parser's variables, changed in place. */
  class Parser {
    var status: Status
    var idx: uint8
    var ckA: uint8
    var ckB: uint8
    var cls: uint8
    var id: uint8
    var len: uint16
    const buf: array<uint8>
    var received: bool
    var ovrn: uint8

    ghost predicate Valid()
      reads this, buf
    {
      buf.Length == MAX_PAYLOAD && Bounded(Model())
    }

    ghost function Model(): UbxState
      requires buf.Length == MAX_PAYLOAD
      reads this, buf
    {
      UbxState(status, idx, ckA, ckB, cls, id, len, buf[..], received, ovrn)
    }

    constructor ()
      ensures Valid() && fresh(buf)
      ensures status == Uninit && !received && ovrn == 0
    {
      status, received, ovrn := Uninit, false, 0;
      idx, ckA, ckB, cls, id, len := 0, 0, 0, 0, 0, 0;
      buf := new uint8[MAX_PAYLOAD];
    }

    method ParseUbx(c: uint8)
      requires Valid()
      modifies this, buf
      ensures Model() == Parse(old(Model()), c)
      ensures Valid()
    {
      hide Dispatch, ToUint8;
      if Summing(status) {
        ckA := ToUint8(ckA + c);
        ckB := ToUint8(ckB + ckA);
      }
      Switch(c);
    }

    // The switch over the parser's status
    method Switch(c: uint8)
      requires Valid()
      modifies this, buf
      ensures Model() == Dispatch(old(Model()), c)
    {
      hide ToUint8;
      match status {
        case Uninit =>
          if c == SYNC1 { status := GotSync1; }
        case GotSync1 =>
          if c != SYNC2 {
            status := Uninit;
          } else {
            ckA := 0;
            ckB := 0;
            status := GotSync2;
          }
        case GotSync2 =>
          if received {
            ovrn := ToUint8(ovrn + 1);
            status := Uninit;
          } else {
            cls := c;
            status := GotClass;
          }
        case GotClass =>
          id := c;
          status := GotId;
        case GotId =>
          len := c;
          status := GotLen1;
        case GotLen1 =>
          len := len + 0x100 * c;
          if len > MAX_PAYLOAD {
            status := Uninit;
          } else {
            idx := 0;
            status := GotLen2;
          }
        case GotLen2 =>
          buf[idx] := c;
          idx := ToUint8(idx + 1);
          if idx >= len { status := GotPayload; }
        case GotPayload =>
          status := if c != ckA then Uninit else GotChecksum1;
        case GotChecksum1 =>
          if c == ckB { received := true; }
          status := Uninit;
      }
    }
  }

  // ---------------------------------------------------------------- soundness

  function Initial(buf: MsgBuffer): UbxState {
    UbxState(Uninit, 0, 0, 0, 0, 0, 0, buf, false, 0)
  }

  function After(s: UbxState, es: seq<Event>): (r: UbxState)
    requires Bounded(s)
    ensures Bounded(r)
    decreases |es|
  {
    if es == [] then s
    else
      var r := After(s, es[..|es| - 1]);
      match es[|es| - 1]
      case ByteIn(c) => Parse(r, c)
      case Handled => r.(received := false)
  }

  // The bytes after the sync bytes that the parser has taken in so far
  function Taken(s: UbxState): seq<uint8>
    requires Bounded(s)
  {
    match s.status
    case Uninit => []
    case GotSync1 => []
    case GotSync2 => []
    case GotClass => [s.cls]
    case GotId => [s.cls, s.id]
    case GotLen1 => [s.cls, s.id, s.len]
    case GotLen2 => Body(s.cls, s.id, s.len, s.buf[..s.idx])
    case GotPayload => Body(s.cls, s.id, s.len, s.buf[..s.idx])
    case GotChecksum1 => Body(s.cls, s.id, s.len, s.buf[..s.idx])
  }

  // The state is accounted for by the most recent bytes of the history
  predicate Explains(h: seq<uint8>, s: UbxState) {
    && Bounded(s)
    && (s.received ==> s.status in {Uninit, GotSync1, GotSync2})
    && match s.status
       case Uninit => true
       case GotSync1 => EndsWith(h, [SYNC1])
       case GotChecksum1 => SumsTaken(s) && EndsWith(h, [SYNC1, SYNC2] + Taken(s) + [s.ckA])
       case _ => SumsTaken(s) && EndsWith(h, [SYNC1, SYNC2] + Taken(s))
  }

  predicate SumsTaken(s: UbxState)
    requires Bounded(s)
  {
    s.ckA == SumA(0, Taken(s)) && s.ckB == SumB(0, 0, Taken(s))
  }

  lemma LengthBytes(lo: uint8, hi: uint8)
    ensures lo + 0x100 * hi < 0x1_0000
    ensures Low(lo + 0x100 * hi) == lo && High(lo + 0x100 * hi) == hi
  {
  }

  predicate InBody(t: Status) {
    t in {GotSync2, GotClass, GotId, GotLen1, GotLen2}
  }

  // In the summed part every byte is taken in, unless the parser gives up
  lemma TakesByte(s: UbxState, c: uint8)
    requires Bounded(s) && InBody(s.status)
    ensures var s' := Parse(s, c);
            && s'.received == s.received
            && (s'.status != Uninit ==>
                  && (InBody(s'.status) || s'.status == GotPayload)
                  && (s.received ==> s.status != GotSync2)
                  && Taken(s') == Taken(s) + [c]
                  && s'.ckA == ToUint8(s.ckA + c) && s'.ckB == ToUint8(s.ckB + s'.ckA))
  {
    hide ToUint8;
    match s.status
    case GotLen1 =>
      LengthBytes(s.len, c);
    case GotLen2 =>
      NextIndex(s.idx);
      var s' := Parse(s, c);
      assert s'.buf[..s'.idx] == s.buf[..s.idx] + [c];
    case _ =>
  }

  lemma NextIndex(n: uint8)
    requires n < MAX_PAYLOAD
    ensures ToUint8(n + 1) == n + 1
  {
  }

  lemma BodyExplained(h: seq<uint8>, s: UbxState, c: uint8)
    requires Explains(h, s) && InBody(s.status)
    ensures Explains(h + [c], Parse(s, c))
  {
    hide Parse, Bounded, Taken, SumA, SumB, EndsWith, ToUint8;
    var t := Taken(s);
    TakesByte(s, c);
    SumStep(0, 0, t, c);
    EndsWithMore(h, [SYNC1, SYNC2] + t, c);
    assert [SYNC1, SYNC2] + t + [c] == [SYNC1, SYNC2] + (t + [c]);
  }

  lemma CheckExplained(h: seq<uint8>, s: UbxState, c: uint8)
    requires Explains(h, s) && s.status in {GotPayload, GotChecksum1}
    ensures Explains(h + [c], Parse(s, c))
  {
    hide SumA, SumB, EndsWith, ToUint8;
    EndsWithMore(h, [SYNC1, SYNC2] + Taken(s), c);
  }

  // Between frames: only the two sync bytes in a row open a body
  lemma SyncStep(s: UbxState, c: uint8)
    requires Bounded(s) && s.status in {Uninit, GotSync1}
    ensures var s' := Parse(s, c);
            && s'.received == s.received
            && match s'.status
               case Uninit => true
               case GotSync1 => c == SYNC1
               case GotSync2 => s.status == GotSync1 && c == SYNC2 && s'.ckA == 0 && s'.ckB == 0
               case _ => false
  {
    hide ToUint8;
  }

  lemma IdleExplained(h: seq<uint8>, s: UbxState, c: uint8)
    requires Explains(h, s) && s.status == Uninit
    ensures Explains(h + [c], Parse(s, c))
  {
    EndsWithNothing(h);
    SyncStep(s, c);
    EndsWithMore(h, [], c);
    assert [] + [c] == [c];
    hide EndsWith, Parse, Taken, SumsTaken;
  }

  lemma OpeningExplained(h: seq<uint8>, s: UbxState, c: uint8)
    requires Explains(h, s) && s.status == GotSync1
    ensures Explains(h + [c], Parse(s, c))
  {
    SyncStep(s, c);
    var s' := Parse(s, c);
    if s'.status == GotSync2 {
      NothingTaken(s');
      EndsWithMore(h, [SYNC1], c);
      assert [SYNC1] + [c] == [SYNC1, SYNC2] + Taken(s');
    }
    hide EndsWith, Parse, Taken, SumsTaken;
  }

  lemma NothingTaken(s: UbxState)
    requires Bounded(s) && s.status == GotSync2 && s.ckA == 0 && s.ckB == 0
    ensures Taken(s) == [] && SumsTaken(s)
  {
  }

  lemma ByteExplained(h: seq<uint8>, s: UbxState, c: uint8)
    requires Explains(h, s)
    ensures Explains(h + [c], Parse(s, c))
  {
    hide Explains, Parse;
    if InBody(s.status) {
      BodyExplained(h, s, c);
    } else if s.status == GotPayload || s.status == GotChecksum1 {
      CheckExplained(h, s, c);
    } else if s.status == Uninit {
      IdleExplained(h, s, c);
    } else {
      OpeningExplained(h, s, c);
    }
  }

  lemma {:induction false} AlwaysExplained(buf: MsgBuffer, es: seq<Event>)
    ensures Explains(History(es), After(Initial(buf), es))
  {
    if es != [] {
      var front, e := es[..|es| - 1], es[|es| - 1];
      AlwaysExplained(buf, front);
      match e
      case ByteIn(c) => ByteExplained(History(front), After(Initial(buf), front), c);
      case Handled =>
        assert History(es) == History(front);
    }
  }

  /**
   Soundness over any byte stream, with messages handled at any time: the flag goes up only
   when the bytes just read are a whole frame with matching sums, and then class, id, length
   and buffer are that frame's.
   */
  lemma ReceivedOnlyFrames(buf: MsgBuffer, es: seq<Event>, c: uint8)
    ensures var s, s' := After(Initial(buf), es), Parse(After(Initial(buf), es), c);
            s'.received && !s.received ==>
              && s'.len <= MAX_PAYLOAD
              && var p := s'.buf[..PayloadSize(s'.len)];
                 EndsWith(History(es) + [c], Summed(Body(s'.cls, s'.id, s'.len, p)))
  {
    AlwaysExplained(buf, es);
    var h, s := History(es), After(Initial(buf), es);
    var s' := Parse(s, c);
    if s'.received && !s.received {
      assert s.status == GotChecksum1 && c == s.ckB;
      var t := [SYNC1, SYNC2] + Taken(s) + [s.ckA];
      EndsWithMore(h, t, c);
      assert t + [c] == Summed(Taken(s));
    }
  }

  lemma PendingStep(s: UbxState, c: uint8)
    requires Bounded(s) && s.received && s.status in {Uninit, GotSync1, GotSync2}
    ensures var s' := Parse(s, c);
            && s'.received && s'.status in {Uninit, GotSync1, GotSync2}
            && s'.cls == s.cls && s'.id == s.id && s'.len == s.len && s'.buf == s.buf
  {
    hide ToUint8;
  }

  lemma {:induction false} PendingStays(s: UbxState, bytes: seq<uint8>)
    requires Bounded(s) && s.received && s.status in {Uninit, GotSync1, GotSync2}
    ensures var s' := ParseAll(s, bytes);
            && s'.received && s'.status in {Uninit, GotSync1, GotSync2}
            && s'.cls == s.cls && s'.id == s.id && s'.len == s.len && s'.buf == s.buf
    decreases |bytes|
  {
    hide Parse, Bounded;
    if bytes != [] {
      PendingStays(s, bytes[..|bytes| - 1]);
      PendingStep(ParseAll(s, bytes[..|bytes| - 1]), bytes[|bytes| - 1]);
    }
  }

  /** While a message is pending nothing the parser reads can change it. */
  lemma PendingUntouched(buf: MsgBuffer, es: seq<Event>, bytes: seq<uint8>)
    requires After(Initial(buf), es).received
    ensures var s, s' := After(Initial(buf), es), ParseAll(After(Initial(buf), es), bytes);
            && s'.received
            && s'.cls == s.cls && s'.id == s.id && s'.len == s.len && s'.buf == s.buf
  {
    AlwaysExplained(buf, es);
    PendingStays(After(Initial(buf), es), bytes);
  }

  // ---------------------------------------------------------------- completeness

  function ParseAll(s: UbxState, bytes: seq<uint8>): (r: UbxState)
    requires Bounded(s)
    ensures Bounded(r)
    decreases |bytes|
  {
    if bytes == [] then s else Parse(ParseAll(s, bytes[..|bytes| - 1]), bytes[|bytes| - 1])
  }

  // The sync bytes and then n bytes of the body have been parsed
  predicate Inside(s: UbxState, body: seq<uint8>, n: nat)
    requires 5 <= |body| && n <= |body|
  {
    && Bounded(s)
    && !s.received
    && s.status == (if n == 0 then GotSync2 else if n == 1 then GotClass else if n == 2 then GotId
                    else if n == 3 then GotLen1 else if n < |body| then GotLen2 else GotPayload)
    && Taken(s) == body[..n]
    && SumsTaken(s)
    && (n >= 4 ==> s.idx == n - 4)
  }

  // A body whose length bytes say what its payload is
  predicate Consistent(body: seq<uint8>) {
    && 5 <= |body|
    && var len: int := body[2] as int + 0x100 * (body[3] as int); len <= MAX_PAYLOAD && |body| - 4 == PayloadSize(len)
  }

  lemma InsideStep(s: UbxState, body: seq<uint8>, n: nat)
    requires Consistent(body) && n < |body| && Inside(s, body, n)
    ensures Inside(Parse(s, body[n]), body, n + 1)
    ensures Parse(s, body[n]).ovrn == s.ovrn
  {
    hide SumA, SumB, Parse, Taken, ToUint8;
    var c := body[n];
    assert body[..n + 1] == body[..n] + [c];
    SumStep(0, 0, Taken(s), c);
    StaysInside(s, body, n);
    TakesByte(s, c);
  }

  // No length error, and the payload ends where the body does
  lemma StaysInside(s: UbxState, body: seq<uint8>, n: nat)
    requires Consistent(body) && n < |body| && Inside(s, body, n)
    ensures var s' := Parse(s, body[n]);
            && s'.status == (if n == 0 then GotClass else if n == 1 then GotId else if n == 2 then GotLen1
                             else if n < |body| - 1 then GotLen2 else GotPayload)
            && s'.ovrn == s.ovrn
            && (n >= 3 ==> s'.idx == n - 3)
  {
    hide SumA, SumB;
    if n == 3 {
      assert Taken(s)[2] == body[2];
    } else if n > 3 {
      LengthIsTaken(s);
      assert Taken(s)[2] == body[2] && Taken(s)[3] == body[3];
      NextIndex(s.idx);
    }
  }

  lemma LengthIsTaken(s: UbxState)
    requires Bounded(s) && s.status == GotLen2
    ensures |Taken(s)| >= 4 && Taken(s)[2] + 0x100 * Taken(s)[3] == s.len
  {
  }

  lemma {:induction false} ParsesBody(s: UbxState, body: seq<uint8>, n: nat)
    requires Bounded(s) && s.status == Uninit && !s.received && Consistent(body) && n <= |body|
    ensures var r := ParseAll(s, [SYNC1, SYNC2] + body[..n]);
            Inside(r, body, n) && r.ovrn == s.ovrn
  {
    var sync := [SYNC1, SYNC2];
    if n == 0 {
      ParseAllTwo(s, [], SYNC1, SYNC2);
      assert sync + body[..0] == sync == [] + sync;
    } else {
      hide Parse, Inside, Consistent;
      ParsesBody(s, body, n - 1);
      var bytes := sync + body[..n];
      assert bytes[..|bytes| - 1] == sync + body[..n - 1] && bytes[|bytes| - 1] == body[n - 1];
      InsideStep(ParseAll(s, sync + body[..n - 1]), body, n - 1);
    }
  }

  lemma ParseAllTwo(s: UbxState, bytes: seq<uint8>, a: uint8, b: uint8)
    requires Bounded(s)
    ensures ParseAll(s, bytes + [a, b]) == Parse(Parse(ParseAll(s, bytes), a), b)
  {
    assert (bytes + [a, b])[..|bytes| + 1] == bytes + [a];
    assert (bytes + [a])[..|bytes|] == bytes;
  }

  lemma CheckBytes(s: UbxState, body: seq<uint8>, a: uint8, b: uint8)
    requires Consistent(body) && Inside(s, body, |body|)
    ensures var r := Parse(Parse(s, a), b);
            && (r.received <==> a == SumA(0, body) && b == SumB(0, 0, body))
            && (r.received ==> r.status == Uninit && r.ovrn == s.ovrn
                               && r.len <= MAX_PAYLOAD && |body| - 4 == PayloadSize(r.len)
                               && Body(r.cls, r.id, r.len, r.buf[..|body| - 4]) == body)
  {
    hide SumA, SumB;
    assert body[..|body|] == body;
    assert Taken(s)[2] == body[2] && Taken(s)[3] == body[3];
    LengthBytes(Low(s.len), High(s.len));
  }

  /**
   A frame whose length bytes are right is received exactly when both sums match; a frame of
   length 0 has to carry one payload byte.
   */
  lemma FrameVerdict(s: UbxState, body: seq<uint8>, a: uint8, b: uint8)
    requires Bounded(s) && s.status == Uninit && !s.received && Consistent(body)
    ensures var r := ParseAll(s, FrameWith(body, a, b));
            && (r.received <==> a == SumA(0, body) && b == SumB(0, 0, body))
            && (r.received ==> r.status == Uninit && r.ovrn == s.ovrn
                               && r.len <= MAX_PAYLOAD && |body| - 4 == PayloadSize(r.len)
                               && Body(r.cls, r.id, r.len, r.buf[..|body| - 4]) == body)
  {
    hide Parse, ParseAll, Inside, SumA, SumB;
    assert body[..|body|] == body;
    ParsesBody(s, body, |body|);
    var bytes := [SYNC1, SYNC2] + body;
    ParseAllTwo(s, bytes, a, b);
    CheckBytes(ParseAll(s, bytes), body, a, b);
  }

  /** Every frame of 1 to 255 payload bytes that the send macros build is accepted. */
  lemma FrameAccepted(s: UbxState, cls: uint8, id: uint8, p: seq<uint8>)
    requires Bounded(s) && s.status == Uninit && !s.received && 1 <= |p| <= MAX_PAYLOAD
    ensures var r := ParseAll(s, Frame(cls, id, p));
            && r.received && r.status == Uninit && r.ovrn == s.ovrn
            && r.cls == cls && r.id == id && r.len == |p| && r.buf[..|p|] == p
  {
    hide SumA, SumB, ParseAll;
    var body := Body(cls, id, |p|, p);
    FrameVerdict(s, body, SumA(0, body), SumB(0, 0, body));
    var r := ParseAll(s, Frame(cls, id, p));
    var body' := Body(r.cls, r.id, r.len, r.buf[..|p|]);
    assert body'[0] == body[0] && body'[1] == body[1];
    assert body'[2] == body[2] && body'[3] == body[3];
    assert body'[4..] == r.buf[..|p|] && body[4..] == p;
    LengthsEqual(r.len, |p|);
  }

  lemma LengthsEqual(m: uint16, n: uint16)
    requires Low(m) == Low(n) && High(m) == High(n)
    ensures m == n
  {
  }

  /** A length of more than 255 ends the frame at its second byte, whatever follows. */
  lemma LongLengthRejected(s: UbxState, cls: uint8, id: uint8, len: uint16)
    requires Bounded(s) && s.status == Uninit && !s.received
    ensures var t := Parse(Parse(Parse(Parse(s, 0xB5), 0x62), cls), id);
            var r := Parse(Parse(t, Low(len)), High(len));
            && !r.received && r.ovrn == s.ovrn
            && (r.status == Uninit <==> len > 255)
  {
    hide ToUint8;
    LengthIs(len);
  }

  /** A frame that starts while a message is pending counts one overrun and is given up. */
  lemma OverrunCounted(s: UbxState, c: uint8)
    requires Bounded(s) && s.status == Uninit && s.received
    ensures var r := Parse(Parse(Parse(s, 0xB5), 0x62), c);
            && r.status == Uninit && r.received && r.ovrn == ToUint8(s.ovrn + 1)
            && r.cls == s.cls && r.id == s.id && r.len == s.len && r.buf == s.buf
  {
  }

  /** Behind a first sync byte only the second one goes on, not another first one. */
  lemma SyncRule(s: UbxState, c: uint8)
    requires Bounded(s) && s.status == Uninit
    ensures Parse(Parse(s, 0xB5), c).status == if c == 0x62 then GotSync2 else Uninit
  {
    hide ToUint8;
  }

  /** A frame with one byte changed, other than a length byte, is rejected. */
  lemma ByteChangeRejected(s: UbxState, cls: uint8, id: uint8, p: seq<uint8>, i: nat, v: uint8)
    requires Bounded(s) && s.status == Uninit && !s.received && 1 <= |p| <= MAX_PAYLOAD
    requires i < 4 + |p| && i != 2 && i != 3 && v != Body(cls, id, |p|, p)[i]
    ensures var body := Body(cls, id, |p|, p);
            !ParseAll(s, FrameWith(body[i := v], SumA(0, body), SumB(0, 0, body))).received
  {
    var body := Body(cls, id, |p|, p);
    hide SumA, SumB, ParseAll;
    FrameVerdict(s, body[i := v], SumA(0, body), SumB(0, 0, body));
    OneChangeNoticed(0, body, i, v);
  }
}

/** Bytes from the UART through the parser to the application. */
module UbxStream {
  import opened CInts
  import opened Fletcher
  import opened UbxFormat
  import opened UbxParser

  /** A pending message as the application finds it. */
  datatype Received = Received(cls: uint8, id: uint8, len: uint16, buf: MsgBuffer)

  /** fifo: received and not yet parsed; handled: what the application was given. */
  datatype GpsState = GpsState(parser: UbxState, fifo: seq<uint8>, handled: seq<Received>)

  function ReadBuffer(s: UbxState, fifo: seq<uint8>): (r: (UbxState, seq<uint8>))
    requires Bounded(s)
    ensures Bounded(r.0)
    decreases |fifo|
  {
    if fifo == [] || s.received then (s, fifo) else ReadBuffer(Parse(s, fifo[0]), fifo[1..])
  }

  function Poll(g: GpsState): (g': GpsState)
    requires Bounded(g.parser)
    ensures Bounded(g'.parser)
  {
    var (s, rest) := ReadBuffer(g.parser, g.fifo);
    if s.received then
      GpsState(s.(received := false), rest, g.handled + [Received(s.cls, s.id, s.len, s.buf)])
    else g.(parser := s, fifo := rest)
  }

  /** The event macro. */
  class GpsLink {
    const parser: Parser
    var fifo: seq<uint8>
    var handled: seq<Received>

    ghost predicate Valid()
      reads this, parser, parser.buf
    {
      parser.Valid()
    }

    ghost function Model(): GpsState
      requires Valid()
      reads this, parser, parser.buf
    {
      GpsState(parser.Model(), fifo, handled)
    }

    constructor ()
      ensures Valid() && fresh(parser) && fresh(parser.buf)
      ensures Idle(Model())
    {
      parser := new Parser();
      fifo, handled := [], [];
    }

    method ReadGpsBuffer()
      requires Valid()
      modifies this`fifo, parser, parser.buf
      ensures Valid() && (parser.Model(), fifo) == ReadBuffer(old(parser.Model()), old(fifo))
    {
      hide Parse, Bounded;
      while fifo != [] && !parser.received
        invariant Valid()
        invariant ReadBuffer(parser.Model(), fifo) == ReadBuffer(old(parser.Model()), old(fifo))
        decreases |fifo|
      {
        var c := fifo[0];
        fifo := fifo[1..];
        parser.ParseUbx(c);
      }
    }

    method GpsEvent()
      requires Valid()
      modifies this, parser, parser.buf
      ensures Valid() && Model() == Poll(old(Model()))
    {
      ReadGpsBuffer();
      if parser.received {
        handled := handled + [Received(parser.cls, parser.id, parser.len, parser.buf[..])];
        parser.received := false;
      }
    }
  }

  predicate Idle(g: GpsState) {
    && Bounded(g.parser) && g.parser.status == Uninit && !g.parser.received
    && g.fifo == [] && g.handled == []
  }

  // ---------------------------------------------------------------- the stream

  /** A message and the idle bytes before its frame. */
  datatype Segment = Segment(gap: seq<uint8>, cls: uint8, id: uint8, payload: seq<uint8>)

  predicate Sendable(g: Segment) {
    SYNC1 !in g.gap && 1 <= |g.payload| <= MAX_PAYLOAD
  }

  function BodyOf(g: Segment): seq<uint8>
    requires Sendable(g)
  {
    Body(g.cls, g.id, |g.payload|, g.payload)
  }

  function Bytes(g: Segment): seq<uint8>
    requires Sendable(g)
  {
    g.gap + Frame(g.cls, g.id, g.payload)
  }

  predicate WellFormed(gs: seq<Segment>, tail: seq<uint8>) {
    (forall g :: g in gs ==> Sendable(g)) && SYNC1 !in tail
  }

  function Stream(gs: seq<Segment>, tail: seq<uint8>): seq<uint8>
    requires WellFormed(gs, tail)
  {
    if gs == [] then tail else Bytes(gs[0]) + Stream(gs[1..], tail)
  }

  // rest is what remains of the stream after d segments and k bytes of the next
  predicate Remaining(rest: seq<uint8>, gs: seq<Segment>, tail: seq<uint8>, d: nat, k: nat)
    requires WellFormed(gs, tail)
  {
    if d < |gs| then k < |Bytes(gs[d])| && rest == Bytes(gs[d])[k..] + Stream(gs[d + 1..], tail)
    else d == |gs| && k <= |tail| && rest == tail[k..]
  }

  // The parser has seen k bytes of the segment
  predicate Within(s: UbxState, g: Segment, k: nat)
    requires Sendable(g)
  {
    var body, n := BodyOf(g), |g.gap|;
    && Bounded(s) && !s.received
    && if k <= n then s.status == Uninit
       else if k == n + 1 then s.status == GotSync1
       else if k <= n + 2 + |body| then Inside(s, body, k - n - 2)
       else k == n + 3 + |body| && s.status == GotChecksum1 && Taken(s) == body && SumsTaken(s)
  }

  predicate Tracks(s: UbxState, rest: seq<uint8>, gs: seq<Segment>, tail: seq<uint8>, d: nat, k: nat)
    requires WellFormed(gs, tail)
  {
    && Remaining(rest, gs, tail, d, k)
    && if d < |gs| then Within(s, gs[d], k) else Bounded(s) && !s.received && s.status == Uninit
  }

  // The application was given this message
  predicate Carries(r: Received, g: Segment) {
    && r.cls == g.cls && r.id == g.id && r.len == |g.payload| <= MAX_PAYLOAD
    && r.buf[..r.len] == g.payload
  }

  predicate Holds(s: UbxState, g: Segment) {
    s.received && s.status == Uninit && Carries(Received(s.cls, s.id, s.len, s.buf), g)
  }

  lemma BodyIsConsistent(g: Segment)
    requires Sendable(g)
    ensures Consistent(BodyOf(g))
  {
  }

  lemma BeforeBody(s: UbxState, g: Segment, k: nat)
    requires Sendable(g) && k <= |g.gap| + 1 && Within(s, g, k)
    ensures var s' := Parse(s, Bytes(g)[k]);
            Within(s', g, k + 1) && s'.ovrn == s.ovrn
  {
    var c := Bytes(g)[k];
    assert SumA(0, []) == 0 && SumB(0, 0, []) == 0;
    assert BodyOf(g)[..0] == [];
    hide SumA, SumB, ToUint8;
    if k < |g.gap| {
      assert c == g.gap[k] && c in g.gap;
    }
  }

  lemma CheckA(s: UbxState, body: seq<uint8>)
    requires Consistent(body) && Inside(s, body, |body|)
    ensures var s' := Parse(s, SumA(0, body));
            && s'.status == GotChecksum1 && Taken(s') == body && SumsTaken(s')
            && !s'.received && s'.ovrn == s.ovrn
  {
    assert body[..|body|] == body;
    hide SumA, SumB;
  }

  lemma CheckB(s: UbxState, g: Segment)
    requires Sendable(g) && Within(s, g, |Bytes(g)| - 1)
    ensures var s' := Parse(s, SumB(0, 0, BodyOf(g)));
            Holds(s', g) && s'.ovrn == s.ovrn
  {
    hide SumA, SumB;
    var t, b := Taken(s), BodyOf(g);
    assert t[0] == b[0] && t[1] == b[1] && t[2] == b[2] && t[3] == b[3] && t[4..] == b[4..];
    LengthBytes(Low(s.len), High(s.len));
    LengthBytes(Low(|g.payload|), High(|g.payload|));
  }

  lemma FrameByte(g: Segment, k: nat)
    requires Sendable(g) && |g.gap| + 2 <= k < |Bytes(g)|
    ensures var b, j := BodyOf(g), k - |g.gap| - 2;
            Bytes(g)[k] == if j < |b| then b[j] else if j == |b| then SumA(0, b) else SumB(0, 0, b)
    ensures |Bytes(g)| == |g.gap| + 4 + |BodyOf(g)|
  {
    hide SumA, SumB;
  }

  lemma SegmentStep(s: UbxState, g: Segment, k: nat)
    requires Sendable(g) && k < |Bytes(g)| && Within(s, g, k)
    ensures var s' := Parse(s, Bytes(g)[k]);
            && s'.ovrn == s.ovrn
            && if k + 1 == |Bytes(g)| then Holds(s', g) else Within(s', g, k + 1)
  {
    var b, n := BodyOf(g), |g.gap|;
    BodyIsConsistent(g);
    if k < n + 2 {
      BeforeBody(s, g, k);
    } else {
      FrameByte(g, k);
      hide SumA, SumB, Parse, Inside, Taken, SumsTaken, Holds;
      if k - n - 2 < |b| {
        InsideStep(s, b, k - n - 2);
      } else if k - n - 2 == |b| {
        CheckA(s, b);
      } else {
        CheckB(s, g);
      }
    }
  }

  lemma SegmentBoundary(rest: seq<uint8>, gs: seq<Segment>, tail: seq<uint8>, d: nat)
    requires WellFormed(gs, tail) && d < |gs| && rest == Stream(gs[d + 1..], tail)
    ensures Remaining(rest, gs, tail, d + 1, 0)
  {
    if d + 1 < |gs| {
      assert gs[d + 1..][1..] == gs[d + 2..];
    }
  }

  lemma ByteStep(s: UbxState, rest: seq<uint8>, gs: seq<Segment>, tail: seq<uint8>, d: nat, k: nat)
    requires WellFormed(gs, tail) && Tracks(s, rest, gs, tail, d, k) && rest != []
    ensures Bounded(s) && !s.received
    ensures var s' := Parse(s, rest[0]);
            && s'.ovrn == s.ovrn
            && if d < |gs| && k + 1 == |Bytes(gs[d])| then
                 Holds(s', gs[d]) && Remaining(rest[1..], gs, tail, d + 1, 0)
               else Tracks(s', rest[1..], gs, tail, d, k + 1)
  {
    hide Parse, Within, Frame, Holds;
    if d < |gs| {
      var b := Bytes(gs[d]);
      InStep(s, gs[d], k);
      assert rest[0] == b[k];
      assert rest[1..] == b[k + 1..] + Stream(gs[d + 1..], tail);
      if k + 1 == |b| {
        assert b[k + 1..] == [];
        SegmentBoundary(rest[1..], gs, tail, d);
      }
    } else {
      assert rest[0] == tail[k] && tail[k] in tail;
      IdleByte(s, rest[0]);
    }
  }

  lemma InStep(s: UbxState, g: Segment, k: nat)
    requires Sendable(g) && k < |Bytes(g)| && Within(s, g, k)
    ensures Bounded(s) && !s.received
    ensures var s' := Parse(s, Bytes(g)[k]);
            && s'.ovrn == s.ovrn
            && if k + 1 == |Bytes(g)| then Holds(s', g) else Within(s', g, k + 1)
  {
    SegmentStep(s, g, k);
  }

  lemma IdleByte(s: UbxState, c: uint8)
    requires Bounded(s) && s.status == Uninit && c != SYNC1
    ensures var s' := Parse(s, c);
            s'.status == Uninit && s'.received == s.received && s'.ovrn == s.ovrn
  {
    hide ToUint8;
  }

  // The next message is pending, or everything in the fifo has been read
  predicate Progress(s: UbxState, rest: seq<uint8>, line: seq<uint8>,
                     gs: seq<Segment>, tail: seq<uint8>, d: nat, k: nat)
    requires WellFormed(gs, tail)
  {
    if s.received then d < |gs| && Holds(s, gs[d]) && Remaining(rest + line, gs, tail, d + 1, 0)
    else rest == [] && Tracks(s, line, gs, tail, d, k)
  }

  // Pending after one byte
  lemma NowPending(s: UbxState, fifo: seq<uint8>, line: seq<uint8>,
                   gs: seq<Segment>, tail: seq<uint8>, d: nat, k: nat)
    requires WellFormed(gs, tail) && Tracks(s, fifo + line, gs, tail, d, k) && fifo != []
    ensures Bounded(s) && !s.received && Parse(s, fifo[0]).ovrn == s.ovrn
    ensures var s' := Parse(s, fifo[0]);
            if s'.received then Progress(s', fifo[1..], line, gs, tail, d, k)
            else Tracks(s', fifo[1..] + line, gs, tail, d, k + 1)
  {
    hide Parse, Within, Remaining, Carries, WellFormed, Bounded;
    ByteStep(s, fifo + line, gs, tail, d, k);
    assert (fifo + line)[0] == fifo[0] && (fifo + line)[1..] == fifo[1..] + line;
    TracksIsQuiet(Parse(s, fifo[0]), fifo[1..] + line, gs, tail, d, k + 1);
  }

  lemma TracksIsQuiet(s: UbxState, rest: seq<uint8>, gs: seq<Segment>, tail: seq<uint8>, d: nat, k: nat)
    requires WellFormed(gs, tail)
    ensures Tracks(s, rest, gs, tail, d, k) ==> !s.received && Bounded(s)
  {
    hide Remaining, Inside;
  }

  /** Reading stops with the fifo empty or with the next message received. */
  lemma {:induction false} ReadTracks(s: UbxState, fifo: seq<uint8>, line: seq<uint8>,
                                     gs: seq<Segment>, tail: seq<uint8>, d: nat, k: nat) returns (k': nat)
    requires WellFormed(gs, tail) && Tracks(s, fifo + line, gs, tail, d, k)
    ensures Bounded(s)
    ensures var (s', rest) := ReadBuffer(s, fifo);
            s'.ovrn == s.ovrn && Progress(s', rest, line, gs, tail, d, k')
    decreases |fifo|
  {
    hide Parse, ReadBuffer, Tracks, Progress, WellFormed, Bounded;
    k' := k;
    TracksIsQuiet(s, fifo + line, gs, tail, d, k);
    if fifo == [] {
      assert fifo + line == line;
      ReadNothing(s, line, gs, tail, d, k);
    } else {
      NowPending(s, fifo, line, gs, tail, d, k);
      ReadOne(s, fifo);
      var s' := Parse(s, fifo[0]);
      if s'.received {
        ReadStops(s', fifo[1..]);
      } else {
        k' := ReadTracks(s', fifo[1..], line, gs, tail, d, k + 1);
      }
    }
  }

  lemma ReadOne(s: UbxState, fifo: seq<uint8>)
    requires Bounded(s) && !s.received && fifo != []
    ensures ReadBuffer(s, fifo) == ReadBuffer(Parse(s, fifo[0]), fifo[1..])
  {
    hide Parse, Bounded;
  }

  lemma ReadStops(s: UbxState, fifo: seq<uint8>)
    requires Bounded(s) && s.received
    ensures ReadBuffer(s, fifo) == (s, fifo)
  {
    hide Parse, Bounded;
  }

  lemma ReadNothing(s: UbxState, line: seq<uint8>, gs: seq<Segment>, tail: seq<uint8>, d: nat, k: nat)
    requires WellFormed(gs, tail) && Tracks(s, line, gs, tail, d, k) && Bounded(s) && !s.received
    ensures ReadBuffer(s, []) == (s, []) && Progress(s, [], line, gs, tail, d, k)
  {
  }

  // ---------------------------------------------------------------- runs

  /** A run: before every poll some bytes arrive. */
  function After(g: GpsState, chunks: seq<seq<uint8>>): (r: GpsState)
    requires Bounded(g.parser)
    ensures Bounded(r.parser)
    decreases |chunks|
  {
    if chunks == [] then g
    else
      var r := After(g, chunks[..|chunks| - 1]);
      Poll(r.(fifo := r.fifo + chunks[|chunks| - 1]))
  }

  function Arrived(chunks: seq<seq<uint8>>): seq<uint8> {
    if chunks == [] then [] else Arrived(chunks[..|chunks| - 1]) + chunks[|chunks| - 1]
  }

  predicate HandledSoFar(handled: seq<Received>, gs: seq<Segment>) {
    && |handled| <= |gs|
    && forall i :: 0 <= i < |handled| ==> Carries(handled[i], gs[i])
  }

  // One poll: empties the fifo or hands on the next message
  lemma PollTracks(g: GpsState, line: seq<uint8>, gs: seq<Segment>, tail: seq<uint8>, k: nat) returns (k': nat)
    requires WellFormed(gs, tail) && HandledSoFar(g.handled, gs)
    requires Tracks(g.parser, g.fifo + line, gs, tail, |g.handled|, k)
    ensures Bounded(g.parser)
    ensures var g' := Poll(g);
            && HandledSoFar(g'.handled, gs)
            && Tracks(g'.parser, g'.fifo + line, gs, tail, |g'.handled|, k')
            && g'.parser.ovrn == g.parser.ovrn
            && if g'.fifo == [] then |g'.handled| >= |g.handled| else |g'.handled| == |g.handled| + 1
  {
    hide ReadBuffer, Remaining, Carries, WellFormed, Within, Bounded, Tracks;
    k' := ReadTracks(g.parser, g.fifo, line, gs, tail, |g.handled|, k);
    var (s, rest) := ReadBuffer(g.parser, g.fifo);
    if s.received {
      k' := 0;
      NextSegment(s, rest + line, gs, tail, |g.handled|);
    } else {
      assert rest + line == line;
    }
  }

  // Handing on a message leaves the parser at the start of the next segment
  lemma NextSegment(s: UbxState, rest: seq<uint8>, gs: seq<Segment>, tail: seq<uint8>, d: nat)
    requires WellFormed(gs, tail) && Bounded(s) && d < |gs| && Holds(s, gs[d])
    requires Remaining(rest, gs, tail, d + 1, 0)
    ensures Tracks(s.(received := false), rest, gs, tail, d + 1, 0)
  {
    hide Remaining, Carries;
    AtStart(s.(received := false), gs, d + 1);
  }

  lemma AtStart(s: UbxState, gs: seq<Segment>, d: nat)
    requires Bounded(s) && s.status == Uninit && !s.received
    ensures forall i :: 0 <= i < |gs| && Sendable(gs[i]) ==> Within(s, gs[i], 0)
  {
  }

  lemma {:induction false} RunTracks(g: GpsState, chunks: seq<seq<uint8>>, line: seq<uint8>,
                                    gs: seq<Segment>, tail: seq<uint8>) returns (k: nat)
    requires WellFormed(gs, tail) && Idle(g) && Arrived(chunks) + line == Stream(gs, tail)
    ensures var r := After(g, chunks);
            && HandledSoFar(r.handled, gs)
            && Tracks(r.parser, r.fifo + line, gs, tail, |r.handled|, k)
            && r.parser.ovrn == g.parser.ovrn
    decreases |chunks|
  {
    hide Poll, Bounded, Remaining, Within, Stream;
    if chunks == [] {
      k := 0;
      assert [] + line == line;
      StartTracks(g, line, gs, tail);
    } else {
      var front, c := chunks[..|chunks| - 1], chunks[|chunks| - 1];
      assert Arrived(front) + (c + line) == Arrived(chunks) + line;
      k := RunTracks(g, front, c + line, gs, tail);
      var r := After(g, front);
      assert r.fifo + (c + line) == (r.fifo + c) + line;
      k := PollTracks(r.(fifo := r.fifo + c), line, gs, tail, k);
    }
  }

  lemma StartTracks(g: GpsState, line: seq<uint8>, gs: seq<Segment>, tail: seq<uint8>)
    requires WellFormed(gs, tail) && Idle(g) && line == Stream(gs, tail)
    ensures Tracks(g.parser, line, gs, tail, 0, 0)
  {
    AtStart(g.parser, gs, 0);
  }

  /**
   At every point of every run, however the stream of frames is cut by the polls: the
   application was given an initial part of the messages, in order and each once, no overrun
   was counted, and nothing is missing once everything has arrived and the fifo is empty.
   */
  lemma StreamHandled(g: GpsState, chunks: seq<seq<uint8>>, line: seq<uint8>, gs: seq<Segment>, tail: seq<uint8>)
    requires WellFormed(gs, tail) && Idle(g) && Arrived(chunks) + line == Stream(gs, tail)
    ensures var r := After(g, chunks);
            && HandledSoFar(r.handled, gs)
            && r.parser.ovrn == g.parser.ovrn
            && (line == [] && r.fifo == [] ==> |r.handled| == |gs|)
  {
    hide Poll, Bounded, Within, Stream, After;
    var k := RunTracks(g, chunks, line, gs, tail);
  }

  /** Once everything has arrived, as many further polls as messages are outstanding hand them on. */
  lemma {:induction false} PollsDrain(g: GpsState, chunks: seq<seq<uint8>>, polls: nat,
                                     gs: seq<Segment>, tail: seq<uint8>)
    requires WellFormed(gs, tail) && Idle(g) && Arrived(chunks) == Stream(gs, tail)
    requires polls <= |chunks| && forall i :: |chunks| - polls <= i < |chunks| ==> chunks[i] == []
    ensures var r := After(g, chunks);
            && HandledSoFar(r.handled, gs)
            && (|r.handled| == |gs| || |r.handled| >= |After(g, chunks[..|chunks| - polls]).handled| + polls)
  {
    hide Poll, Bounded, Within, Stream, After, Remaining;
    var none: seq<uint8> := [];
    assert Arrived(chunks) + none == Arrived(chunks);
    StreamHandled(g, chunks, none, gs, tail);
    if polls == 0 {
      assert chunks[..|chunks|] == chunks;
    } else {
      var front := chunks[..|chunks| - 1];
      assert chunks[|chunks| - 1] == none;
      assert Arrived(front) + none == Arrived(front) == Arrived(chunks);
      PollsDrain(g, front, polls - 1, gs, tail);
      assert front[..|front| - (polls - 1)] == chunks[..|chunks| - polls];
      LastPoll(g, chunks, gs, tail);
    }
  }

  lemma LastPoll(g: GpsState, chunks: seq<seq<uint8>>, gs: seq<Segment>, tail: seq<uint8>)
    requires WellFormed(gs, tail) && Idle(g) && Arrived(chunks) == Stream(gs, tail)
    requires chunks != [] && chunks[|chunks| - 1] == []
    ensures var before, r := After(g, chunks[..|chunks| - 1]), After(g, chunks);
            |r.handled| == |gs| || |r.handled| == |before.handled| + 1
  {
    hide Poll, Bounded, Within, Stream, Remaining;
    var none: seq<uint8> := [];
    var front := chunks[..|chunks| - 1];
    assert Arrived(front) + none == Arrived(front) == Arrived(chunks);
    assert Arrived(chunks) + none == Arrived(chunks);
    var k := RunTracks(g, front, none, gs, tail);
    var r := After(g, front);
    assert r.fifo + none == r.fifo;
    var k' := PollTracks(r.(fifo := r.fifo + none), none, gs, tail, k);
    StreamHandled(g, chunks, none, gs, tail);
  }
}
