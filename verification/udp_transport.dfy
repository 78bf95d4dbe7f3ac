/**
 Telemetry frames batched into datagrams: start byte, length, timestamp, aircraft and
 message id, payload, and the Fletcher sums of everything in between.
 */
module UdpFormat {
  import opened CInts
  import opened Fletcher

  const STX: uint8 := 0x98
  const PROTOCOL_OVERHEAD := 8
  const TX_BUF_LEN := 1496
  const TX_BUF_WATERMARK := 1024

  // The four bytes of the message timestamp as they lie in memory
  type Timestamp = t: seq<uint8> | |t| == 4 witness [0, 0, 0, 0]

  // The payload length is given in one byte
  type Payload = p: seq<uint8> | |p| <= 255 witness []

  datatype Message = Message(timestamp: Timestamp, acId: uint8, msgId: uint8, payload: Payload)

  // The frame length fits the length byte
  predicate Sendable(m: Message) {
    |m.payload| <= 245
  }

  function Checked(m: Message): (c: seq<uint8>)
    ensures |c| == |m.payload| + 7
  {
    [ToUint8(|m.payload| + 2 + PROTOCOL_OVERHEAD)] + m.timestamp + [m.acId, m.msgId] + m.payload
  }

  /** The length byte counts every byte of the frame, unless that does not fit a byte. */
  function Frame(m: Message): (f: seq<uint8>)
    ensures |f| == |m.payload| + 10 && f[0] == STX
    ensures f[1] == |f| <==> Sendable(m)
  {
    var c := Checked(m);
    [STX] + c + [SumA(0, c), SumB(0, 0, c)]
  }

  /** The frame byte by byte, and what its last two bytes sum up. */
  lemma FrameBytes(m: Message)
    ensures var f, n := Frame(m), |m.payload|;
            && f[0] == 0x98 && f[1] == ToUint8(n + 10)
            && f[2..6] == m.timestamp && f[6] == m.acId && f[7] == m.msgId
            && f[8..8 + n] == m.payload
            && f[8 + n] == ToUint8(Total(f[1..8 + n]))
            && f[9 + n] == ToUint8(Weighted(f[1..8 + n]))
  {
    hide SumA, SumB, Total, Weighted, ToUint8;
    var c := Checked(m);
    assert Frame(m)[1..8 + |m.payload|] == c;
    ClosedForms(0, 0, c);
  }

  predicate AllSendable(ms: seq<Message>) {
    AllWithin(ms, 245)
  }

  predicate AllWithin(ms: seq<Message>, limit: nat) {
    forall m :: m in ms ==> |m.payload| <= limit
  }

  function Frames(ms: seq<Message>): seq<uint8> {
    if ms == [] then [] else Frame(ms[0]) + Frames(ms[1..])
  }

  lemma {:induction false} FramesAppend(ms: seq<Message>, ns: seq<Message>)
    ensures Frames(ms + ns) == Frames(ms) + Frames(ns)
  {
    hide Frame;
    if ms == [] {
      assert ms + ns == ns;
    } else {
      assert (ms + ns)[1..] == ms[1..] + ns;
      FramesAppend(ms[1..], ns);
    }
  }

  lemma FramesOne(m: Message)
    ensures Frames([m]) == Frame(m)
  {
    assert [m][1..] == [];
    assert Frame(m) + [] == Frame(m);
  }
}

/** The batching writer. */
module UdpWriter {
  import opened CInts
  import opened Fletcher
  import opened UdpFormat

  /** What has gone to the network, one entry a datagram, and what is still buffered. */
  datatype Output = Output(datagrams: seq<seq<uint8>>, buffered: seq<uint8>)

  function Flush(o: Output): Output {
    if o.buffered == [] then o else Output(o.datagrams + [o.buffered], [])
  }

  function Send(o: Output, m: Message): Output {
    var o' := o.(buffered := o.buffered + Frame(m));
    if |o'.buffered| > TX_BUF_WATERMARK then Flush(o') else o'
  }

  /** The transport's buffer, index and sums, changed by every byte put. */
  class UdpTransport {
    const txBuf: array<uint8>
    var txBufIdx: uint16
    var ckA: uint8
    var ckB: uint8
    const acId: uint8
    var datagrams: seq<seq<uint8>>

    ghost predicate Valid()
      reads this
    {
      txBuf.Length == TX_BUF_LEN && txBufIdx <= TX_BUF_LEN
    }

    ghost function Buffered(): seq<uint8>
      requires Valid()
      reads this, txBuf
    {
      txBuf[..txBufIdx]
    }

    ghost function Model(): Output
      requires Valid()
      reads this, txBuf
    {
      Output(datagrams, Buffered())
    }

    constructor (acId: uint8)
      ensures Valid() && fresh(txBuf) && this.acId == acId
      ensures Model() == Output([], [])
    {
      txBuf := new uint8[TX_BUF_LEN];
      txBufIdx, ckA, ckB, datagrams := 0, 0, 0, [];
      this.acId := acId;
    }

    method Put1Byte(x: uint8)
      requires Valid() && txBufIdx < TX_BUF_LEN
      modifies txBuf, this`txBufIdx
      ensures Valid() && Buffered() == old(Buffered()) + [x]
    {
      txBuf[txBufIdx] := x;
      txBufIdx := txBufIdx + 1;
    }

    // The bytes of c are buffered after before and are in the sums
    ghost predicate Summing(before: seq<uint8>, c: seq<uint8>)
      reads this, txBuf
    {
      && Valid()
      && Buffered() == before + c
      && ckA == SumA(0, c)
      && ckB == SumB(0, 0, c)
    }

    method PutUint8(x: uint8, ghost before: seq<uint8>, ghost c: seq<uint8>)
      requires Summing(before, c) && txBufIdx < TX_BUF_LEN
      modifies txBuf, this`txBufIdx, this`ckA, this`ckB
      ensures Summing(before, c + [x]) && txBufIdx == old(txBufIdx) + 1
    {
      SumStep(0, 0, c, x);
      ckA := ToUint8(ckA + x);
      ckB := ToUint8(ckB + ckA);
      Put1Byte(x);
      assert before + (c + [x]) == before + c + [x];
    }

    method PutBytes(bytes: seq<uint8>, ghost before: seq<uint8>, ghost c: seq<uint8>)
      requires |bytes| <= 255
      requires Summing(before, c) && txBufIdx + |bytes| <= TX_BUF_LEN
      modifies txBuf, this`txBufIdx, this`ckA, this`ckB
      ensures Summing(before, c + bytes) && txBufIdx == old(txBufIdx) + |bytes|
    {
      hide Summing, SumA, SumB;
      assert c + bytes[..0] == c;
      for i := 0 to |bytes|
        invariant txBufIdx == old(txBufIdx) + i
        invariant Summing(before, c + bytes[..i])
      {
        PutUint8(bytes[i], before, c + bytes[..i]);
        assert c + bytes[..i] + [bytes[i]] == c + bytes[..i + 1];
      }
      assert bytes[..|bytes|] == bytes;
    }

    method Header(payloadLen: uint8, timestamp: Timestamp)
      requires Valid() && txBufIdx + 6 <= TX_BUF_LEN
      modifies txBuf, this`txBufIdx, this`ckA, this`ckB
      ensures Summing(old(Buffered()) + [STX], [ToUint8(payloadLen + PROTOCOL_OVERHEAD)] + timestamp)
      ensures txBufIdx == old(txBufIdx) + 6
    {
      ghost var before := Buffered() + [STX];
      Put1Byte(STX);
      var msgLen := ToUint8(payloadLen + PROTOCOL_OVERHEAD);
      ckA, ckB := 0, 0;
      assert before + [] == before;
      PutUint8(msgLen, before, []);
      assert [] + [msgLen] == [msgLen];
      PutBytes(timestamp, before, [msgLen]);
    }

    method StartMessage(msgId: uint8, payloadLen: uint8, timestamp: Timestamp)
      requires Valid() && txBufIdx + 8 <= TX_BUF_LEN
      modifies txBuf, this`txBufIdx, this`ckA, this`ckB
      ensures Summing(old(Buffered()) + [STX],
                      [ToUint8(ToUint8(2 + payloadLen) + PROTOCOL_OVERHEAD)] + timestamp + [acId, msgId])
      ensures txBufIdx == old(txBufIdx) + 8
    {
      hide Summing, SumA, SumB;
      ghost var before := Buffered() + [STX];
      Header(ToUint8(2 + payloadLen), timestamp);
      ghost var c := [ToUint8(ToUint8(2 + payloadLen) + PROTOCOL_OVERHEAD)] + timestamp;
      PutUint8(acId, before, c);
      PutUint8(msgId, before, c + [acId]);
      assert c + [acId] + [msgId] == c + [acId, msgId];
    }

    method EndMessage()
      requires Valid() && txBufIdx + 2 <= TX_BUF_LEN
      modifies this, txBuf
      ensures Valid()
      ensures var o := Output(old(datagrams), old(Buffered()) + [old(ckA), old(ckB)]);
              Model() == if |o.buffered| > TX_BUF_WATERMARK then Flush(o) else o
    {
      Put1Byte(ckA);
      Put1Byte(ckB);
      assert Buffered() == old(Buffered()) + [ckA, ckB];
      if txBufIdx > TX_BUF_WATERMARK {
        datagrams := datagrams + [txBuf[..txBufIdx]];
        txBufIdx := 0;
      }
    }

    method Periodic()
      requires Valid()
      modifies this
      ensures Valid() && Model() == Flush(old(Model()))
    {
      if txBufIdx > 0 {
        datagrams := datagrams + [txBuf[..txBufIdx]];
        txBufIdx := 0;
      }
    }

    /** One telemetry message, as the generated code sends it: start, put, end. */
    method SendMessage(timestamp: Timestamp, msgId: uint8, payload: Payload)
      requires Valid() && txBufIdx <= TX_BUF_WATERMARK
      modifies this, txBuf
      ensures Valid() && txBufIdx <= TX_BUF_WATERMARK
      ensures Model() == Send(old(Model()), Message(timestamp, acId, msgId, payload))
    {
      ghost var m := Message(timestamp, acId, msgId, payload);
      ghost var before := Buffered() + [STX];
      FrameParts(old(Buffered()), m);
      hide SumA, SumB, ToUint8, Checked, Frame;
      StartMessage(msgId, |payload|, timestamp);
      ghost var c := [ToUint8(ToUint8(2 + |payload|) + PROTOCOL_OVERHEAD)] + timestamp + [acId, msgId];
      PutBytes(payload, before, c);
      EndMessage();
    }
  }

  // What the puts of a message append is its frame
  lemma FrameParts(before: seq<uint8>, m: Message)
    ensures [ToUint8(ToUint8(2 + |m.payload|) + PROTOCOL_OVERHEAD)] + m.timestamp + [m.acId, m.msgId]
            + m.payload == Checked(m)
    ensures var c := Checked(m);
            before + [STX] + c + [SumA(0, c), SumB(0, 0, c)] == before + Frame(m)
  {
    LengthByte(|m.payload|);
    hide SumA, SumB, ToUint8;
  }

  lemma LengthByte(n: nat)
    ensures ToUint8(ToUint8(2 + n) + PROTOCOL_OVERHEAD) == ToUint8(n + 2 + PROTOCOL_OVERHEAD)
  {
    hide ToUint8;
    ModAdd(2 + n, PROTOCOL_OVERHEAD);
  }

  // ---------------------------------------------------------------- runs

  /** Messages are whole; the periodic flush comes between two of them. */
  datatype Event = SendMsg(m: Message) | Periodic

  // Every payload sent has at most limit bytes
  predicate Within(es: seq<Event>, limit: nat) {
    forall e :: e in es && e.SendMsg? ==> |e.m.payload| <= limit
  }

  function After(es: seq<Event>): Output {
    if es == [] then Output([], [])
    else
      var o := After(es[..|es| - 1]);
      match es[|es| - 1] case SendMsg(m) => Send(o, m) case Periodic => Flush(o)
  }

  function Sent(es: seq<Event>): seq<Message> {
    if es == [] then []
    else Sent(es[..|es| - 1]) + match es[|es| - 1] case SendMsg(m) => [m] case Periodic => []
  }

  function Concat<T>(ss: seq<seq<T>>): seq<T> {
    if ss == [] then [] else Concat(ss[..|ss| - 1]) + ss[|ss| - 1]
  }

  lemma ConcatOne<T>(ss: seq<seq<T>>, s: seq<T>)
    ensures Concat(ss + [s]) == Concat(ss) + s
  {
    assert (ss + [s])[..|ss|] == ss;
  }

  // The longest datagram when payloads have at most limit bytes
  function MaxDatagram(limit: nat): nat {
    TX_BUF_WATERMARK + limit + 10
  }

  // The messages of every datagram, and those still in the buffer
  ghost predicate Batched(o: Output, groups: seq<seq<Message>>, open: seq<Message>, limit: nat) {
    && |groups| == |o.datagrams|
    && (forall k :: 0 <= k < |groups| ==>
          && groups[k] != [] && AllWithin(groups[k], limit)
          && o.datagrams[k] == Frames(groups[k])
          && |o.datagrams[k]| <= MaxDatagram(limit))
    && AllWithin(open, limit)
    && o.buffered == Frames(open)
  }

  lemma FlushBatched(o: Output, groups: seq<seq<Message>>, open: seq<Message>, limit: nat)
      returns (groups': seq<seq<Message>>, open': seq<Message>)
    requires Batched(o, groups, open, limit) && |o.buffered| <= MaxDatagram(limit)
    ensures Batched(Flush(o), groups', open', limit)
    ensures Concat(groups') + open' == Concat(groups) + open
  {
    groups', open' := groups, open;
    if o.buffered != [] {
      groups', open' := groups + [open], [];
      ConcatOne(groups, open);
    }
  }

  lemma SendBatched(o: Output, groups: seq<seq<Message>>, open: seq<Message>, m: Message, limit: nat)
      returns (groups': seq<seq<Message>>, open': seq<Message>)
    requires Batched(o, groups, open, limit) && |o.buffered| <= TX_BUF_WATERMARK && |m.payload| <= limit
    ensures Batched(Send(o, m), groups', open', limit)
    ensures |Send(o, m).buffered| <= TX_BUF_WATERMARK
    ensures Concat(groups') + open' == Concat(groups) + open + [m]
  {
    hide Frame;
    FramesAppend(open, [m]);
    FramesOne(m);
    groups', open' := groups, open + [m];
    var o' := o.(buffered := o.buffered + Frame(m));
    assert Concat(groups) + (open + [m]) == Concat(groups) + open + [m];
    if |o'.buffered| > TX_BUF_WATERMARK {
      groups', open' := FlushBatched(o', groups, open + [m], limit);
    }
  }

  /**
   In every run the buffer stays within the watermark between messages, so at most one frame
   over it while one is put together; every datagram is whole frames only, at least one;
   and datagrams and buffer together hold every message sent, in order.
   */
  lemma {:induction false} WholeFramesOnly(es: seq<Event>, limit: nat)
      returns (groups: seq<seq<Message>>, open: seq<Message>)
    requires Within(es, limit)
    ensures Batched(After(es), groups, open, limit)
    ensures |After(es).buffered| <= TX_BUF_WATERMARK
    ensures Concat(groups) + open == Sent(es)
  {
    if es == [] {
      groups, open := [], [];
    } else {
      var front, e := es[..|es| - 1], es[|es| - 1];
      assert Within(front, limit) by { assert forall x :: x in front ==> x in es; }
      assert e in es;
      groups, open := WholeFramesOnly(front, limit);
      hide Send, Batched;
      match e
      case SendMsg(m) => groups, open := SendBatched(After(front), groups, open, m, limit);
      case Periodic => groups, open := FlushBatched(After(front), groups, open, limit);
    }
  }

  /**
   When datagrams are written, in every run: a message is written at once, with everything
   before it, exactly when that makes more than 1024 bytes; a periodic flush leaves nothing.
   */
  lemma WrittenWhen(es: seq<Event>, e: Event)
    ensures var (o, o') := (After(es), After(es + [e]));
            match e
            case SendMsg(m) =>
              var all := o.buffered + Frame(m);
              if |o.buffered| + |m.payload| + 10 > 1024 then o' == Output(o.datagrams + [all], [])
              else o' == Output(o.datagrams, all)
            case Periodic =>
              && o'.buffered == []
              && (o.buffered == [] ==> o'.datagrams == o.datagrams)
              && (o.buffered != [] ==> o'.datagrams == o.datagrams + [o.buffered])
  {
    hide Checked, SumA, SumB;
    assert (es + [e])[..|es|] == es;
  }

  lemma {:induction false} ConcatFrames(datagrams: seq<seq<uint8>>, groups: seq<seq<Message>>)
    requires |groups| == |datagrams|
    requires forall k :: 0 <= k < |groups| ==> datagrams[k] == Frames(groups[k])
    ensures Concat(datagrams) == Frames(Concat(groups))
  {
    if groups != [] {
      var n := |groups| - 1;
      ConcatFrames(datagrams[..n], groups[..n]);
      FramesAppend(Concat(groups[..n]), groups[n]);
    }
  }

  /** Conservation of bytes: what was written and what is buffered are all the frames sent. */
  lemma BytesConserved(es: seq<Event>)
    ensures Concat(After(es).datagrams) + After(es).buffered == Frames(Sent(es))
  {
    var groups, open := WholeFramesOnly(es, 255);
    ConcatFrames(After(es).datagrams, groups);
    FramesAppend(Concat(groups), open);
  }
}

/** The reader of captured datagrams. */
module OnboardLogger {
  import opened CInts
  import opened Fletcher
  import opened UdpFormat
  import opened UdpWriter

  const MIN_MSG_LENGTH := 3
  const UDP_HEADER_LENGTH := 8

  datatype Entry =
    | Mismatch
    | Line(timestamp: uint8, acId: uint8, msgId: uint8, shown: seq<uint8>)

  // memory holds a message length at j, and everything the logger reads of that message
  predicate Readable(memory: seq<uint8>, j: nat) {
    j + 7 <= |memory| && MIN_MSG_LENGTH <= memory[j] && j + memory[j] <= |memory| + 1
  }

  function Logged(memory: seq<uint8>, j: nat): Entry
    requires Readable(memory, j)
  {
    var n := memory[j] - 3;
    var c := memory[j..j + n];
    if SumA(0, c) != memory[j + n] || SumB(0, 0, c) != memory[j + n + 1] then Mismatch
    else Line(memory[j + 1], memory[j + 5], memory[j + 6], if n > 6 then memory[j + 6..j + n] else [])
  }

  /**
   What one packet adds to the log. udpLength is the length field of the UDP header, which
   counts that header too, so the walk may go up to 8 bytes past the datagram.
   */
  function Walk(memory: seq<uint8>, i: nat, udpLength: uint16): seq<Entry>
    requires udpLength + 4 <= |memory|
    decreases udpLength - i
  {
    if i >= udpLength || memory[i] != STX then []
    else if i + 1 + memory[i + 1] <= udpLength && memory[i + 1] >= MIN_MSG_LENGTH then
      [Logged(memory, i + 1)] + Walk(memory, i + memory[i + 1], udpLength)
    else Walk(memory, i + 1, udpLength)
  }

  class Logger {
    var log: seq<Entry>

    constructor ()
      ensures log == []
    {
      log := [];
    }

    method GotPprzMessage(memory: seq<uint8>, j: nat)
      requires Readable(memory, j)
      modifies this
      ensures log == old(log) + [Logged(memory, j)]
    {
      var length := memory[j];
      var ckA, ckB := Sums(memory, j);
      if ckA != memory[j + length - 3] || ckB != memory[j + length - 2] {
        log := log + [Mismatch];
        return;
      }
      var shown := Shown(memory, j);
      log := log + [Line(memory[j + 1], memory[j + 5], memory[j + 6], shown)];
    }

    method Sums(memory: seq<uint8>, j: nat) returns (ckA: uint8, ckB: uint8)
      requires Readable(memory, j)
      ensures var c := memory[j..j + (memory[j] - 3)];
              ckA == SumA(0, c) && ckB == SumB(0, 0, c)
    {
      hide SumA, SumB, ToUint8;
      var n := memory[j] - 3;
      ghost var c := memory[j..j + n];
      ckA, ckB := 0, 0;
      SumNothing(0, 0);
      assert c[..0] == [];
      for i := 0 to n
        invariant ckA == SumA(0, c[..i])
        invariant ckB == SumB(0, 0, c[..i])
      {
        SumStep(0, 0, c[..i], c[i]);
        assert c[..i + 1] == c[..i] + [c[i]];
        ckA := ToUint8(ckA + memory[j + i]);
        ckB := ToUint8(ckB + ckA);
      }
      assert c[..n] == c;
    }

    method Shown(memory: seq<uint8>, j: nat) returns (shown: seq<uint8>)
      requires Readable(memory, j)
      ensures shown == if memory[j] > 9 then memory[j + 6..j + memory[j] - 3] else []
    {
      shown := [];
      var i := 6;
      while i < memory[j] - 3
        invariant 6 <= i <= Max(6, memory[j] - 3)
        invariant memory[j] <= 9 ==> i == 6
        invariant j + i <= |memory| && shown == memory[j + 6..j + i]
      {
        shown := shown + [memory[j + i]];
        i := i + 1;
      }
    }

    method GotPacket(memory: seq<uint8>, udpLength: uint16)
      requires udpLength + 4 <= |memory|
      modifies this
      ensures log == old(log) + Walk(memory, 0, udpLength)
    {
      var i := 0;
      while i < udpLength
        invariant log + Walk(memory, i, udpLength) == old(log) + Walk(memory, 0, udpLength)
        decreases udpLength - i
      {
        if memory[i] != STX {
          break;
        }
        i := i + 1;
        var msgLength := memory[i];
        if i + msgLength <= udpLength && msgLength >= MIN_MSG_LENGTH {
          GotPprzMessage(memory, i);
          i := i + (memory[i] - 1);
        }
      }
    }
  }

  function Max(a: int, b: int): (m: int)
    ensures m >= a && m >= b && (m == a || m == b)
  {
    if a > b then a else b
  }

  // ---------------------------------------------------------------- what it logs

  function LineOf(m: Message): Entry {
    Line(m.timestamp[0], m.acId, m.msgId, [m.msgId] + m.payload)
  }

  function Lines(ms: seq<Message>): seq<Entry> {
    if ms == [] then [] else [LineOf(ms[0])] + Lines(ms[1..])
  }

  lemma SliceOfSlice(s: seq<uint8>, i: nat, n: nat, a: nat, b: nat)
    requires i + n <= |s| && a <= b <= n
    ensures s[i..i + n][a..b] == s[i + a..i + b]
  {
    var u, v := s[i..i + n], s[i + a..i + b];
    assert forall k :: 0 <= k < b - a ==> u[a..b][k] == v[k];
  }

  lemma FrameLayout(m: Message)
    ensures var f, c := Frame(m), Checked(m);
            && |f| == |c| + 3 && |c| >= 7 && f[1..1 + |c|] == c
            && f[|c| + 1] == SumA(0, c) && f[|c| + 2] == SumB(0, 0, c)
            && f[2] == m.timestamp[0] && f[6] == m.acId && f[7] == m.msgId
            && c[6..|c|] == [m.msgId] + m.payload
  {
    hide SumA, SumB;
  }

  lemma ByteOf(memory: seq<uint8>, i: nat, f: seq<uint8>, k: nat)
    requires i + |f| <= |memory| && memory[i..i + |f|] == f && k < |f|
    ensures memory[i + k] == f[k]
  {
    assert memory[i..i + |f|][k] == memory[i + k];
  }

  // The frame of m lies at i
  lemma FrameLogged(memory: seq<uint8>, i: nat, m: Message)
    requires Sendable(m) && i + |Frame(m)| <= |memory|
    requires memory[i..i + |Frame(m)|] == Frame(m)
    ensures memory[i] == STX && memory[i + 1] == |Frame(m)| && Readable(memory, i + 1)
    ensures Logged(memory, i + 1) == LineOf(m)
  {
    var f, c := Frame(m), Checked(m);
    FrameLayout(m);
    hide SumA, SumB, Frame, Checked;
    ByteOf(memory, i, f, 0);
    ByteOf(memory, i, f, 1);
    ByteOf(memory, i, f, 2);
    ByteOf(memory, i, f, 6);
    ByteOf(memory, i, f, 7);
    ByteOf(memory, i, f, |c| + 1);
    ByteOf(memory, i, f, |c| + 2);
    SliceOfSlice(memory, i, |f|, 1, 1 + |c|);
    SliceOfSlice(memory, i + 1, |c|, 6, |c|);
    assert memory[i + 1] - 3 == |c|;
    assert memory[i + 7..i + 1 + |c|] == [m.msgId] + m.payload;
  }

  // The bytes c, started and followed by two check bytes, lie at i
  predicate LiesAt(memory: seq<uint8>, i: nat, c: seq<uint8>, a: uint8, b: uint8) {
    && i + |c| + 3 <= |memory| && 7 <= |c| && c[0] == |c| + 3
    && memory[i..i + |c| + 3] == [STX] + c + [a, b]
  }

  lemma EntryAt(memory: seq<uint8>, i: nat, c: seq<uint8>, a: uint8, b: uint8)
    requires LiesAt(memory, i, c, a, b)
    ensures 7 <= |c| && i + |c| + 3 <= |memory|
    ensures memory[i] == STX && memory[i + 1] == |c| + 3 && Readable(memory, i + 1)
    ensures memory[i + 2] == c[1] && memory[i + 6] == c[5] && memory[i + 7] == c[6]
    ensures memory[i + 1..i + 1 + |c|] == c && memory[i + 7..i + 1 + |c|] == c[6..]
    ensures memory[i + 1 + |c|] == a && memory[i + 2 + |c|] == b
  {
    var f := [STX] + c + [a, b];
    ByteOf(memory, i, f, 0);
    ByteOf(memory, i, f, 1);
    ByteOf(memory, i, f, 2);
    ByteOf(memory, i, f, 6);
    ByteOf(memory, i, f, 7);
    ByteOf(memory, i, f, |c| + 1);
    ByteOf(memory, i, f, |c| + 2);
    assert f[1..1 + |c|] == c;
    SliceOfSlice(memory, i, |f|, 1, 1 + |c|);
    SliceOfSlice(memory, i + 1, |c|, 6, |c|);
  }

  /**
   Only the sums decide: whatever bytes c with a true length byte lie in memory, the logger
   writes "checksum mismatch" if and only if the two bytes after them are not their sums.
   */
  lemma MismatchIff(memory: seq<uint8>, i: nat, c: seq<uint8>, a: uint8, b: uint8)
    requires LiesAt(memory, i, c, a, b)
    ensures Readable(memory, i + 1)
    ensures Logged(memory, i + 1) == Mismatch <==> a != ToUint8(Total(c)) || b != ToUint8(Weighted(c))
    ensures Logged(memory, i + 1) != Mismatch ==>
              Logged(memory, i + 1) == Line(c[1], c[5], c[6], c[6..])
  {
    hide SumA, SumB, Total, Weighted, ToUint8, LiesAt;
    EntryAt(memory, i, c, a, b);
    ClosedForms(0, 0, c);
  }

  /** The checked bytes of a message followed by any two bytes: its line exactly for its sums. */
  lemma ChecksDecide(memory: seq<uint8>, i: nat, m: Message, a: uint8, b: uint8)
    requires Sendable(m) && i + |m.payload| + 10 <= |memory|
    requires memory[i..i + |m.payload| + 10] == [STX] + Checked(m) + [a, b]
    ensures Readable(memory, i + 1)
    ensures Logged(memory, i + 1) ==
            if Frame(m) == [STX] + Checked(m) + [a, b] then LineOf(m) else Mismatch
  {
    hide SumA, SumB, Total, Weighted, ToUint8, Frame;
    var c := Checked(m);
    FrameLayout(m);
    MismatchIff(memory, i, c, a, b);
    ClosedForms(0, 0, c);
    FrameEnds(m, a, b);
  }

  lemma FrameEnds(m: Message, a: uint8, b: uint8)
    ensures var c := Checked(m);
            Frame(m) == [STX] + c + [a, b] <==> a == SumA(0, c) && b == SumB(0, 0, c)
  {
    hide SumA, SumB, Checked;
    var c := Checked(m);
    var f := [STX] + c + [a, b];
    assert f[|c| + 1] == a && f[|c| + 2] == b;
    assert Frame(m)[|c| + 1] == SumA(0, c) && Frame(m)[|c| + 2] == SumB(0, 0, c);
  }

  // One byte of a frame changed to v, or two of them to v and w
  datatype Damage = One(k: nat, v: uint8) | Two(k: nat, l: nat, v: uint8, w: uint8)

  // Behind the length byte, two bytes being summed bytes at odd distance
  predicate Hits(m: Message, d: Damage) {
    match d
    case One(k, v) => 2 <= k < |m.payload| + 10 && v != Frame(m)[k]
    case Two(k, l, v, w) => 2 <= k < l < |m.payload| + 8 && (l - k) % 2 == 1 && v != Frame(m)[k]
  }

  function Damaged(m: Message, d: Damage): (f: seq<uint8>)
    requires Hits(m, d)
    ensures |f| == |m.payload| + 10
  {
    match d
    case One(k, v) => Frame(m)[k := v]
    case Two(k, l, v, w) => Frame(m)[k := v][l := w]
  }

  // What damage does: bytes with a true length byte whose sums do not match
  predicate Unmatched(f: seq<uint8>, c: seq<uint8>, a: uint8, b: uint8) {
    && f == [STX] + c + [a, b]
    && 7 <= |c| && c[0] == |c| + 3
    && (a != SumA(0, c) || b != SumB(0, 0, c))
  }

  lemma DamageUnmatched(m: Message, d: Damage) returns (c: seq<uint8>, a: uint8, b: uint8)
    requires Sendable(m) && Hits(m, d)
    ensures Unmatched(Damaged(m, d), c, a, b) && |c| == |m.payload| + 7
  {
    FrameLayout(m);
    hide SumA, SumB;
    c, a, b := Checked(m), SumA(0, Checked(m)), SumB(0, 0, Checked(m));
    match d
    case One(k, v) =>
      if k <= |c| {
        OneChangeNoticed(0, c, k - 1, v);
        c := c[k - 1 := v];
      } else if k == |c| + 1 {
        a := v;
      } else {
        b := v;
      }
      assert Frame(m)[k := v] == [STX] + c + [a, b];
    case Two(k, l, v, w) =>
      OddDistanceNoticed(0, 0, c, k - 1, l - 1, v, w);
      c := c[k - 1 := v][l - 1 := w];
      assert Frame(m)[k := v][l := w] == [STX] + c + [a, b];
  }

  /**
   What the walk does at a start byte: a length of at least 3 that fits the packet makes a
   message, and the walk goes on behind it; any other length is skipped with the start byte.
   */
  lemma WalkTakes(memory: seq<uint8>, i: nat, udpLength: uint16)
    requires udpLength + 4 <= |memory| && i < udpLength && memory[i] == STX
    ensures if 3 <= memory[i + 1] && i + 1 + memory[i + 1] <= udpLength then
              && Readable(memory, i + 1)
              && Walk(memory, i, udpLength) ==
                 [Logged(memory, i + 1)] + Walk(memory, i + memory[i + 1], udpLength)
            else Walk(memory, i, udpLength) == Walk(memory, i + 1, udpLength)
  {
    hide Logged;
  }

  lemma FirstLogged(memory: seq<uint8>, i: nat, m: Message, udpLength: uint16)
    requires Sendable(m) && udpLength + 4 <= |memory|
    requires i + |Frame(m)| < udpLength
    requires memory[i..i + |Frame(m)|] == Frame(m)
    ensures Walk(memory, i, udpLength) == [LineOf(m)] + Walk(memory, i + |Frame(m)|, udpLength)
  {
    hide Frame, Walk, Logged, LineOf;
    FrameLogged(memory, i, m);
    WalkTakes(memory, i, udpLength);
  }

  /** A damaged frame adds "checksum mismatch" to the log and no line. */
  lemma DamageLogged(memory: seq<uint8>, i: nat, m: Message, d: Damage, udpLength: uint16)
    requires Sendable(m) && Hits(m, d) && udpLength + 4 <= |memory|
    requires var f := Damaged(m, d); i + |f| < udpLength && memory[i..i + |f|] == f
    ensures Walk(memory, i, udpLength) == [Mismatch] + Walk(memory, i + |m.payload| + 10, udpLength)
  {
    hide Walk, Logged, Damaged, SumA, SumB, Total, Weighted, Frame, Hits, ToUint8;
    var c, a, b := DamageUnmatched(m, d);
    ClosedForms(0, 0, c);
    MismatchIff(memory, i, c, a, b);
    EntryAt(memory, i, c, a, b);
    WalkTakes(memory, i, udpLength);
  }

  /** A stretch of whole frames is logged message by message, whatever surrounds it. */
  lemma {:induction false} FramesLogged(memory: seq<uint8>, i: nat, ms: seq<Message>, udpLength: uint16)
    requires AllSendable(ms) && udpLength + 4 <= |memory|
    requires i + |Frames(ms)| < udpLength
    requires memory[i..i + |Frames(ms)|] == Frames(ms)
    ensures Walk(memory, i, udpLength) == Lines(ms) + Walk(memory, i + |Frames(ms)|, udpLength)
    decreases |ms|
  {
    hide Frame, Walk, LineOf;
    if ms != [] {
      var f, rest := Frame(ms[0]), Frames(ms[1..]);
      assert Frames(ms)[..|f|] == f && Frames(ms)[|f|..] == rest;
      SliceOfSlice(memory, i, |f| + |rest|, 0, |f|);
      SliceOfSlice(memory, i, |f| + |rest|, |f|, |f| + |rest|);
      FirstLogged(memory, i, ms[0], udpLength);
      FramesLogged(memory, i + |f|, ms[1..], udpLength);
      assert i + |f| + |rest| == i + |Frames(ms)|;
    }
  }

  // The bytes after the datagram would pass for the start of a message
  ghost predicate FrameLike(tail: seq<uint8>) {
    exists t: nat :: PassesAt(tail, t)
  }

  predicate PassesAt(tail: seq<uint8>, t: nat) {
    && t + 1 < |tail| && t < UDP_HEADER_LENGTH
    && (forall k :: 0 <= k <= t ==> tail[k] == STX)
    && MIN_MSG_LENGTH <= tail[t + 1] <= UDP_HEADER_LENGTH - 1 - t
  }

  lemma {:induction false} TailQuiet(memory: seq<uint8>, n: nat, t: nat)
    requires t <= UDP_HEADER_LENGTH && n + UDP_HEADER_LENGTH < 0x1_0000
    requires n + UDP_HEADER_LENGTH + 4 <= |memory|
    requires forall k :: 0 <= k < t ==> memory[n..][k] == STX && !PassesAt(memory[n..], k)
    ensures Walk(memory, n + t, n + UDP_HEADER_LENGTH) == [] <==> !FrameLike(memory[n..])
    decreases UDP_HEADER_LENGTH - t
  {
    var tail := memory[n..];
    assert t < |tail| && tail[t] == memory[n + t] && tail[t + 1] == memory[n + t + 1];
    hide Logged;
    if t < UDP_HEADER_LENGTH && tail[t] == STX {
      if tail[t + 1] < MIN_MSG_LENGTH || t + 1 + tail[t + 1] > UDP_HEADER_LENGTH {
        TailQuiet(memory, n, t + 1);
      } else {
        assert PassesAt(tail, t);
      }
    } else {
      assert forall k: nat :: PassesAt(tail, k) ==> k < t;
    }
  }

  lemma SplitAgain(a: seq<uint8>, b: seq<uint8>)
    ensures (a + b)[0..|a|] == a && (a + b)[|a|..] == b
  {
  }

  lemma OnlyPrefix(a: seq<Entry>, b: seq<Entry>, c: seq<Entry>)
    requires a == b + c
    ensures b <= a && (a == b <==> c == [])
  {
    assert |a| == |b| + |c|;
  }

  /**
   A captured datagram of whole frames is logged as exactly its messages, in order and with
   every checksum matching, if and only if the memory after it does not pass for a frame.
   */
  lemma DatagramLogged(ms: seq<Message>, tail: seq<uint8>)
    requires AllSendable(ms) && |tail| >= UDP_HEADER_LENGTH + 4
    requires |Frames(ms)| + UDP_HEADER_LENGTH < 0x1_0000
    ensures Lines(ms) <= Walk(Frames(ms) + tail, 0, |Frames(ms)| + UDP_HEADER_LENGTH)
    ensures Walk(Frames(ms) + tail, 0, |Frames(ms)| + UDP_HEADER_LENGTH) == Lines(ms) <==> !FrameLike(tail)
  {
    var n := |Frames(ms)|;
    var memory := Frames(ms) + tail;
    hide Walk, FrameLike, Frames, Lines;
    SplitAgain(Frames(ms), tail);
    FramesLogged(memory, 0, ms, n + UDP_HEADER_LENGTH);
    TailQuiet(memory, n, 0);
    OnlyPrefix(Walk(memory, 0, n + UDP_HEADER_LENGTH), Lines(ms), Walk(memory, n, n + UDP_HEADER_LENGTH));
  }

  // The bytes f lie at i
  predicate At(memory: seq<uint8>, i: nat, f: seq<uint8>) {
    i + |f| <= |memory| && memory[i..i + |f|] == f
  }

  lemma FourParts(a: seq<uint8>, f: seq<uint8>, b: seq<uint8>, tail: seq<uint8>)
    ensures var all, n := a + f + b + tail, |a| + |f| + |b|;
            At(all, 0, a) && At(all, |a|, f) && At(all, |a| + |f|, b) && At(all, n, tail)
  {
  }

  lemma FramesAt(memory: seq<uint8>, i: nat, ms: seq<Message>, j: nat, udpLength: uint16)
    requires AllSendable(ms) && udpLength + 4 <= |memory| && At(memory, i, Frames(ms))
    requires j == i + |Frames(ms)| < udpLength
    ensures Walk(memory, i, udpLength) == Lines(ms) + Walk(memory, j, udpLength)
  {
    hide Walk, Frames, Lines, AllSendable;
    FramesLogged(memory, i, ms, udpLength);
  }

  lemma DamageAt(memory: seq<uint8>, i: nat, m: Message, d: Damage, j: nat, udpLength: uint16)
    requires Sendable(m) && Hits(m, d) && udpLength + 4 <= |memory| && At(memory, i, Damaged(m, d))
    requires j == i + |m.payload| + 10 < udpLength
    ensures Walk(memory, i, udpLength) == [Mismatch] + Walk(memory, j, udpLength)
  {
    hide Damaged, Hits;
    DamageLogged(memory, i, m, d, udpLength);
  }

  lemma QuietAt(memory: seq<uint8>, n: nat, tail: seq<uint8>)
    requires At(memory, n, tail) && n + |tail| == |memory| && |tail| >= UDP_HEADER_LENGTH + 4
    requires !FrameLike(tail) && n + UDP_HEADER_LENGTH < 0x1_0000
    ensures Walk(memory, n, n + UDP_HEADER_LENGTH) == []
  {
    assert memory[n..] == tail;
    TailQuiet(memory, n, 0);
  }

  /**
   Damage stays local: of a datagram with one damaged frame, every other message is logged
   and the damaged one gives a mismatch in its place.
   */
  lemma DamagedDatagram(ms: seq<Message>, m: Message, d: Damage, ns: seq<Message>, tail: seq<uint8>)
    requires AllSendable(ms) && Sendable(m) && AllSendable(ns) && Hits(m, d)
    requires |tail| >= UDP_HEADER_LENGTH + 4 && !FrameLike(tail)
    requires |Frames(ms)| + |m.payload| + 10 + |Frames(ns)| + UDP_HEADER_LENGTH < 0x1_0000
    ensures var datagram := Frames(ms) + Damaged(m, d) + Frames(ns);
            Walk(datagram + tail, 0, |datagram| + UDP_HEADER_LENGTH)
            == Lines(ms) + [Mismatch] + Lines(ns)
  {
    hide Walk, FrameLike, Frames, Lines, Frame, AllSendable, Hits, At;
    var memory := Frames(ms) + Damaged(m, d) + Frames(ns) + tail;
    var a, b := |Frames(ms)|, |Frames(ms)| + |m.payload| + 10;
    FourParts(Frames(ms), Damaged(m, d), Frames(ns), tail);
    DamagedBetween(memory, ms, m, d, ns, tail, a, b, b + |Frames(ns)|);
  }

  lemma DamagedBetween(memory: seq<uint8>, ms: seq<Message>, m: Message, d: Damage, ns: seq<Message>,
                       tail: seq<uint8>, a: nat, b: nat, n: nat)
    requires AllSendable(ms) && Sendable(m) && AllSendable(ns) && Hits(m, d)
    requires |tail| >= UDP_HEADER_LENGTH + 4 && !FrameLike(tail)
    requires a == |Frames(ms)| && b == a + |m.payload| + 10 && n == b + |Frames(ns)|
    requires n + UDP_HEADER_LENGTH < 0x1_0000 && n + |tail| == |memory|
    requires At(memory, 0, Frames(ms)) && At(memory, a, Damaged(m, d))
    requires At(memory, b, Frames(ns)) && At(memory, n, tail)
    ensures Walk(memory, 0, n + UDP_HEADER_LENGTH) == Lines(ms) + [Mismatch] + Lines(ns)
  {
    hide Walk, FrameLike, Frames, Lines, Damaged, AllSendable, Hits, At;
    FramesAt(memory, 0, ms, a, n + UDP_HEADER_LENGTH);
    DamageAt(memory, a, m, d, b, n + UDP_HEADER_LENGTH);
    FramesAt(memory, b, ns, n, n + UDP_HEADER_LENGTH);
    QuietAt(memory, n, tail);
    Regroup(Walk(memory, 0, n + UDP_HEADER_LENGTH),
            Lines(ms), Walk(memory, a, n + UDP_HEADER_LENGTH),
            [Mismatch], Walk(memory, b, n + UDP_HEADER_LENGTH),
            Lines(ns), Walk(memory, n, n + UDP_HEADER_LENGTH));
  }

  lemma Regroup(w0: seq<Entry>, x: seq<Entry>, w1: seq<Entry>, y: seq<Entry>, w2: seq<Entry>,
                z: seq<Entry>, w3: seq<Entry>)
    requires w0 == x + w1 && w1 == y + w2 && w2 == z + w3 && w3 == []
    ensures w0 == x + y + z
  {
    assert w2 == z;
    assert x + (y + z) == x + y + z;
  }

  // Bytes that pass for a frame of four bytes with matching sums
  function PhantomTail(): seq<uint8> {
    [STX, 4, 4, 4, 0, 0, 1, 2, 0, 0, 0, 0]
  }

  lemma PhantomIsFrameLike()
    ensures |PhantomTail()| == 12 && FrameLike(PhantomTail())
  {
    assert PassesAt(PhantomTail(), 0);
  }

  lemma TailByte(memory: seq<uint8>, n: nat, k: nat)
    requires n + k < |memory|
    ensures memory[n..][k] == memory[n + k]
  {
  }

  lemma PhantomEntry(memory: seq<uint8>, j: nat)
    requires j + 11 == |memory| && memory[j] == memory[j + 1] == memory[j + 2] == 4
    requires memory[j + 5] == 1 && memory[j + 6] == 2
    ensures Logged(memory, j) == Line(4, 1, 2, [])
  {
    assert memory[j..j + 1] == [] + [4];
    SumStep(0, 0, [], 4);
  }

  lemma PhantomLogged(memory: seq<uint8>, n: nat)
    requires n + UDP_HEADER_LENGTH < 0x1_0000 && n + 12 == |memory| && memory[n..] == PhantomTail()
    ensures Walk(memory, n, n + UDP_HEADER_LENGTH) == [Line(4, 1, 2, [])]
  {
    TailByte(memory, n, 0);
    TailByte(memory, n, 1);
    TailByte(memory, n, 2);
    TailByte(memory, n, 3);
    TailByte(memory, n, 4);
    TailByte(memory, n, 6);
    TailByte(memory, n, 7);
    assert memory[n] == STX && memory[n + 1] == memory[n + 2] == memory[n + 3] == 4;
    assert memory[n + 4] == 0 && memory[n + 6] == 1 && memory[n + 7] == 2;
    hide PhantomTail, Logged;
    PhantomEntry(memory, n + 1);
    WalkTakes(memory, n, n + UDP_HEADER_LENGTH);
    assert Walk(memory, n + 4, n + UDP_HEADER_LENGTH) == [];
  }

  /**
   After any datagram, bytes that pass for a frame put a line in the log of a message that was
   never sent.
   */
  lemma PhantomLine(ms: seq<Message>)
    requires AllSendable(ms) && |Frames(ms)| + UDP_HEADER_LENGTH < 0x1_0000
    ensures |PhantomTail()| == 12 && FrameLike(PhantomTail())
    ensures Walk(Frames(ms) + PhantomTail(), 0, |Frames(ms)| + UDP_HEADER_LENGTH)
            == Lines(ms) + [Line(4, 1, 2, [])]
  {
    hide Frames, Lines, Walk, FrameLike, PhantomTail;
    var n := |Frames(ms)|;
    var memory := Frames(ms) + PhantomTail();
    PhantomIsFrameLike();
    SplitAgain(Frames(ms), PhantomTail());
    FramesLogged(memory, 0, ms, n + UDP_HEADER_LENGTH);
    PhantomLogged(memory, n);
  }

  // What is logged of all datagrams, each followed in memory by its own tail
  function LoggedAll(datagrams: seq<seq<uint8>>, tails: seq<seq<uint8>>): seq<Entry>
    requires |tails| == |datagrams|
    requires forall k :: 0 <= k < |tails| ==> |tails[k]| >= UDP_HEADER_LENGTH + 4
    requires forall k :: 0 <= k < |datagrams| ==> |datagrams[k]| + UDP_HEADER_LENGTH < 0x1_0000
  {
    if datagrams == [] then []
    else
      var n := |datagrams| - 1;
      LoggedAll(datagrams[..n], tails[..n])
      + Walk(datagrams[n] + tails[n], 0, |datagrams[n]| + UDP_HEADER_LENGTH)
  }

  lemma {:induction false} LinesAppend(ms: seq<Message>, ns: seq<Message>)
    ensures Lines(ms + ns) == Lines(ms) + Lines(ns)
  {
    if ms == [] {
      assert ms + ns == ns;
    } else {
      assert (ms + ns)[1..] == ms[1..] + ns;
      LinesAppend(ms[1..], ns);
    }
  }

  lemma {:induction false} GroupsLogged(datagrams: seq<seq<uint8>>, tails: seq<seq<uint8>>,
                                       groups: seq<seq<Message>>)
    requires |tails| == |datagrams| == |groups|
    requires forall k :: 0 <= k < |tails| ==> |tails[k]| >= UDP_HEADER_LENGTH + 4 && !FrameLike(tails[k])
    requires forall k :: 0 <= k < |groups| ==> AllSendable(groups[k]) && datagrams[k] == Frames(groups[k])
    requires forall k :: 0 <= k < |datagrams| ==> |datagrams[k]| <= TX_BUF_WATERMARK + 255
    ensures LoggedAll(datagrams, tails) == Lines(Concat(groups))
  {
    hide Walk, Frames, FrameLike;
    if groups != [] {
      var n := |groups| - 1;
      GroupsLogged(datagrams[..n], tails[..n], groups[..n]);
      DatagramLogged(groups[n], tails[n]);
      LinesAppend(Concat(groups[..n]), groups[n]);
    }
  }

  /**
   Writer and logger together: after any run that ends with everything flushed, the log of
   the datagrams is one line for each message sent, in order, with its ids and payload.
   */
  lemma SentIsLogged(es: seq<Event>, tails: seq<seq<uint8>>)
    requires Within(es, 245) && After(es).buffered == []
    requires |tails| == |After(es).datagrams|
    requires forall k :: 0 <= k < |tails| ==> |tails[k]| >= UDP_HEADER_LENGTH + 4 && !FrameLike(tails[k])
    ensures forall k :: 0 <= k < |tails| ==> |After(es).datagrams[k]| <= TX_BUF_WATERMARK + 255
    ensures LoggedAll(After(es).datagrams, tails) == Lines(Sent(es))
  {
    var groups, open := WholeFramesOnly(es, 245);
    assert MaxDatagram(245) == TX_BUF_WATERMARK + 255;
    assert open == [];
    assert Concat(groups) + open == Concat(groups);
    GroupsLogged(After(es).datagrams, tails, groups);
  }
}
