/**
 The SPI stream protocol of lisa_spistream.h.

 A message is cut into packages of 32 bytes.  Every package but the last carries
 the number of packages still to come; the last one carries the negated number of
 padding bytes.  The sender queues packages in a ring buffer, one package travels
 per SPI event, and the receiver rebuilds the byte array.
 */
module SpiStreamFormat {
  import opened CInts

  const PACKAGE_SIZE := 32
  // The maximum message length
  const RX_BUFFER_SIZE := 720
  // Four messages of maximum length: (720 / 32) * 4
  const TX_CAPACITY := 88
  // Whole packages that fit in the receive buffer: 720 / 32
  const RX_CAPACITY := 22
  const INVALID_MESSAGE_ID: uint8 := 0

  type PackageData = d: seq<uint8> | |d| == PACKAGE_SIZE witness seq(PACKAGE_SIZE, _ => 0)

  datatype Package = Package(messageCnt: uint8, packageCntd: int8, data: PackageData)

  // Sent when there is nothing to send
  const FILLER := Package(INVALID_MESSAGE_ID, 0, Zeros())

  function Zeros(): PackageData {
    seq(PACKAGE_SIZE, _ => 0)
  }

  datatype Message = Message(id: uint8, bytes: seq<uint8>)

  function NumPackages(n: nat): nat {
    (n + PACKAGE_SIZE - 1) / PACKAGE_SIZE
  }

  /** The i-th block of 32 bytes of a message, zero-padded. */
  function Chunk(bytes: seq<uint8>, i: nat): PackageData {
    seq(PACKAGE_SIZE, j requires 0 <= j < PACKAGE_SIZE =>
      if PACKAGE_SIZE * i + j < |bytes| then bytes[PACKAGE_SIZE * i + j] else 0)
  }

  /** What package i of a message of n bytes writes in package_cntd (8 bits). */
  function Countdown(n: nat, i: nat): int8
    requires i < NumPackages(n)
  {
    var k := NumPackages(n);
    if i == k - 1 then n - PACKAGE_SIZE * k else ToInt8(k - i)
  }

  function Fragment(m: Message): (ps: seq<Package>)
    ensures |ps| == NumPackages(|m.bytes|)
  {
    seq(NumPackages(|m.bytes|), i requires 0 <= i < NumPackages(|m.bytes|) =>
      Package(m.id, Countdown(|m.bytes|, i), Chunk(m.bytes, i)))
  }

  /** The packages of several messages, one message after the other. */
  function FragmentAll(ms: seq<Message>): seq<Package> {
    if ms == [] then [] else Fragment(ms[0]) + FragmentAll(ms[1..])
  }

  lemma FragmentAllAppend(ms: seq<Message>, m: Message)
    ensures FragmentAll(ms + [m]) == FragmentAll(ms) + Fragment(m)
  {
    if ms == [] {
      assert FragmentAll([m]) == Fragment(m) + FragmentAll([m][1..]);
    } else {
      assert (ms + [m])[1..] == ms[1..] + [m];
      FragmentAllAppend(ms[1..], m);
    }
  }

  // Messages whose reassembly fits the receive buffer
  predicate Sendable(bytes: seq<uint8>) {
    1 <= |bytes| <= PACKAGE_SIZE * RX_CAPACITY
  }
}

/** Sending side: ring buffer of packages. */
module SpiStreamSender {
  import opened CInts
  import opened SpiStreamFormat

  datatype SenderState = SenderState(
    tx: seq<Package>, insert: nat, read: nat, num: uint16,
    messageCnt: uint8, done: seq<uint8>)

  // Every index used on the ring is within bounds
  predicate Safe(s: SenderState) {
    |s.tx| == TX_CAPACITY && s.insert < TX_CAPACITY && s.read < TX_CAPACITY
  }

  // The ring holds what its counters say
  predicate Ring(s: SenderState) {
    Safe(s) && s.num <= TX_CAPACITY && s.insert == Slot(s.read, s.num)
  }

  // Index i places after another one on the ring
  function Slot(read: nat, i: nat): nat {
    if read + i < TX_CAPACITY then read + i else read + i - TX_CAPACITY
  }

  /** Packages waiting in the ring, oldest first. */
  function Queue(s: SenderState): seq<Package>
    requires Ring(s)
  {
    seq(s.num, i requires 0 <= i < s.num => s.tx[Slot(s.read, i)])
  }

  function NextIndex(i: nat): nat {
    if i + 1 >= TX_CAPACITY then 0 else i + 1
  }

  function NextMessageCnt(cnt: uint8): uint8 {
    if cnt == 255 then 1 else cnt + 1
  }

  function Put(s: SenderState, p: Package): (s': SenderState)
    requires Safe(s)
    ensures Safe(s')
  {
    s.(tx := s.tx[s.insert := p], insert := NextIndex(s.insert), num := ToUint16(s.num + 1))
  }

  function PutAll(s: SenderState, ps: seq<Package>): (s': SenderState)
    requires Safe(s)
    ensures Safe(s')
    ensures ps == [] ==> s' == s
    ensures s'.read == s.read && s'.messageCnt == s.messageCnt && s'.done == s.done
    decreases |ps|
  {
    if ps == [] then s else Put(PutAll(s, ps[..|ps| - 1]), ps[|ps| - 1])
  }

  // The test made before accepting a message
  predicate Accepts(s: SenderState, noWait: bool) {
    noWait || s.num + 1 < TX_CAPACITY
  }

  /** Queues all packages of a message under the next message id, or nothing. */
  function Enqueue(s: SenderState, bytes: seq<uint8>, noWait: bool): (s': SenderState)
    requires Safe(s)
    ensures Safe(s')
  {
    if Accepts(s, noWait) then
      var id := NextMessageCnt(s.messageCnt);
      PutAll(s.(messageCnt := id), Fragment(Message(id, bytes)))
    else s
  }

  /** Takes the oldest package out of the ring; an empty ring yields a filler. */
  function Write(s: SenderState): (r: (SenderState, Package))
    requires Safe(s)
    ensures Safe(r.0)
  {
    if s.num == 0 then (s, FILLER)
    else
      var p := s.tx[s.read];
      (s.(read := NextIndex(s.read), num := s.num - 1,
          done := if p.packageCntd <= 0 then s.done + [p.messageCnt] else s.done), p)
  }

  lemma AppendByte(a: seq<uint8>, b: seq<uint8>, r: nat)
    requires |a| == |b| && r < |a| && a[..r] == b[..r]
    ensures a[r := b[r]][..r + 1] == b[..r + 1]
  {
    forall i | 0 <= i < r ensures a[i] == b[i] {
      assert a[..r][i] == b[..r][i];
    }
  }

  lemma FragmentByte(m: Message, j: nat, r: nat)
    requires j < NumPackages(|m.bytes|) && r < PACKAGE_SIZE
    ensures var i, p := PACKAGE_SIZE * j + r, Fragment(m)[j];
            var left := NumPackages(|m.bytes|) - j;
            && i % PACKAGE_SIZE == r
            && p.messageCnt == m.id
            && p.data[r] == (if i < |m.bytes| then m.bytes[i] else 0)
            && p.packageCntd == (if left == 1 then |m.bytes| - PACKAGE_SIZE * (j + 1)
                                 else ToInt8(left))
  {
  }

  lemma FragmentIds(m: Message)
    ensures forall j :: 0 <= j < |Fragment(m)| ==> Fragment(m)[j].messageCnt == m.id
  {
    hide Chunk;
  }

  lemma PutAllStep(s: SenderState, ps: seq<Package>, j: nat)
    requires Safe(s) && j < |ps|
    ensures PutAll(s, ps[..j + 1]) == Put(PutAll(s, ps[..j]), ps[j])
  {
    assert ps[..j + 1][..j] == ps[..j];
  }

  /** The insertion index is the read index plus the number of packages, modulo the capacity. */
  lemma RingIndex(s: SenderState)
    requires Ring(s)
    ensures s.insert == (s.read + s.num) % TX_CAPACITY
  {
    var i := s.read + s.num;
    assert i == (if i < 88 then 0 else 88) + s.insert;
  }

  // One package more in the ring: appended to the queue as long as there is a free slot
  lemma PutQueues(s: SenderState, p: Package)
    requires Ring(s) && s.num < TX_CAPACITY
    ensures Ring(Put(s, p)) && Queue(Put(s, p)) == Queue(s) + [p]
  {
    assert forall i :: 0 <= i < s.num ==> Slot(s.read, i) != s.insert;
  }

  lemma {:induction false} PutAllQueues(s: SenderState, ps: seq<Package>)
    requires Ring(s) && s.num + |ps| <= TX_CAPACITY
    ensures Ring(PutAll(s, ps)) && PutAll(s, ps).num == s.num + |ps|
    ensures Queue(PutAll(s, ps)) == Queue(s) + ps
    decreases |ps|
  {
    if ps != [] {
      var front := ps[..|ps| - 1];
      PutAllQueues(s, front);
      PutQueues(PutAll(s, front), ps[|ps| - 1]);
      assert ps == front + [ps[|ps| - 1]];
    }
  }

  lemma ToUint16Step(n: nat)
    ensures ToUint16(n) + 1 < 0x1_0000 ==> ToUint16(n + 1) == ToUint16(n) + 1
    ensures ToUint16(ToUint16(n) + 1) == ToUint16(n + 1)
  {
  }

  lemma {:induction false} PutAllCount(s: SenderState, ps: seq<Package>)
    requires Safe(s)
    ensures PutAll(s, ps).num == ToUint16(s.num + |ps|)
    decreases |ps|
  {
    if ps != [] {
      PutAllCount(s, ps[..|ps| - 1]);
      ToUint16Step(s.num + |ps| - 1);
    }
  }

  /** An accepted message joins the queue in full if the ring has room for all its packages. */
  lemma EnqueueQueues(s: SenderState, bytes: seq<uint8>, noWait: bool)
    requires Ring(s) && Accepts(s, noWait)
    requires s.num + NumPackages(|bytes|) <= TX_CAPACITY
    ensures var s' := Enqueue(s, bytes, noWait);
            && Ring(s')
            && Queue(s') == Queue(s) + Fragment(Message(s'.messageCnt, bytes))
  {
    var id := NextMessageCnt(s.messageCnt);
    PutAllQueues(s.(messageCnt := id), Fragment(Message(id, bytes)));
  }

  /**
   The ring stays consistent exactly when an accepted message has room for all its
   packages; the test made before accepting, in either mode, does not imply this.
   */
  lemma RingKeptIffRoom(s: SenderState, bytes: seq<uint8>, noWait: bool)
    requires Ring(s) && |bytes| < 0x1_0000
    ensures Ring(Enqueue(s, bytes, noWait)) <==>
            (Accepts(s, noWait) ==> s.num + NumPackages(|bytes|) <= TX_CAPACITY)
  {
    if Accepts(s, noWait) {
      var id := NextMessageCnt(s.messageCnt);
      PutAllCount(s.(messageCnt := id), Fragment(Message(id, bytes)));
      if s.num + NumPackages(|bytes|) <= TX_CAPACITY {
        EnqueueQueues(s, bytes, noWait);
      }
    }
  }

  /** With 86 packages waiting, a three-package message is accepted and overruns the ring. */
  lemma WaitForReadOverruns(s: SenderState, bytes: seq<uint8>)
    requires Ring(s) && s.num == 86 && |bytes| == 96
    ensures Accepts(s, false) && !Ring(Enqueue(s, bytes, false))
  {
    RingKeptIffRoom(s, bytes, false);
  }

  /**
   A message is refused exactly when 87 or 88 packages are waiting and NO_WAIT is not given;
   whatever its length, an accepted one moves the message count on.
   */
  lemma RefusedIff(s: SenderState, bytes: seq<uint8>, noWait: bool)
    requires Ring(s)
    ensures Enqueue(s, bytes, noWait) == s <==> !noWait && s.num >= 87
  {
    if Accepts(s, noWait) {
      assert Enqueue(s, bytes, noWait).messageCnt != s.messageCnt;
    }
  }

  // A ring in which n packages wait, the oldest one in slot 0
  function Waiting(n: nat): (s: SenderState)
    requires n < TX_CAPACITY
    ensures Ring(s) && s.num == n
  {
    SenderState(seq(TX_CAPACITY, _ => FILLER), n, 0, n, 0, [])
  }

  /**
   WAIT_FOR_READ is a sufficient guard exactly for the messages of at most two packages:
   those it accepts fit the ring in every state, and any longer one overruns some ring.
   */
  lemma WaitForReadSufficesIff(bytes: seq<uint8>)
    requires |bytes| < 0x1_0000
    ensures (forall s: SenderState :: Ring(s) ==> Ring(Enqueue(s, bytes, false))) <==> |bytes| <= 64
  {
    forall s: SenderState | Ring(s) && |bytes| <= 64
      ensures Ring(Enqueue(s, bytes, false))
    {
      RingKeptIffRoom(s, bytes, false);
    }
    RingKeptIffRoom(Waiting(86), bytes, false);
  }

  lemma EnqueueKeeps(s: SenderState, bytes: seq<uint8>, noWait: bool)
    requires Safe(s)
    ensures Enqueue(s, bytes, noWait).done == s.done
    ensures Accepts(s, noWait) ==>
              Enqueue(s, bytes, noWait).messageCnt == NextMessageCnt(s.messageCnt) != 0
  {
  }

  lemma WriteDequeues(s: SenderState)
    requires Ring(s)
    ensures var (s', p) := Write(s);
            && Ring(s')
            && (Queue(s) == [] ==>
                s' == s && p.messageCnt == 0 && p.packageCntd == 0 && p.data == seq(32, _ => 0))
            && (Queue(s) != [] ==>
                p == Queue(s)[0] && Queue(s') == Queue(s)[1..] &&
                s'.done == if p.packageCntd <= 0 then s.done + [p.messageCnt] else s.done)
  {
    if s.num > 0 {
      var (s', p) := Write(s);
      assert forall i :: 0 <= i < s'.num ==> Slot(s'.read, i) == Slot(s.read, i + 1);
      assert Queue(s') == Queue(s)[1..];
    }
  }

  class Sender {
    var txMessageCnt: uint8
    var txInsert: nat
    var txRead: nat
    var txNumPackages: uint16
    const tx: array<Package>
    // Arguments of the message_tx_handler calls made so far
    var txDone: seq<uint8>

    ghost predicate Valid()
      reads this, tx
    {
      Safe(Model())
    }

    ghost function Model(): SenderState
      reads this, tx
    {
      SenderState(tx[..], txInsert, txRead, txNumPackages, txMessageCnt, txDone)
    }

    constructor ()
      ensures Valid() && fresh(tx)
      ensures Ring(Model()) && Queue(Model()) == [] && txMessageCnt == 0 && txDone == []
    {
      tx := new Package[TX_CAPACITY](_ => FILLER);
      txMessageCnt, txInsert, txRead, txNumPackages, txDone := 0, 0, 0, 0, [];
    }

    method EnqueueMsg(data: array<uint8>, numBytes: uint16, noWait: bool) returns (accepted: bool)
      requires Valid() && numBytes <= data.Length
      modifies this, tx
      ensures Valid()
      ensures accepted == Accepts(old(Model()), noWait)
      ensures Model() == Enqueue(old(Model()), old(data[..numBytes]), noWait)
    {
      if !(noWait || txNumPackages + 1 < TX_CAPACITY) {
        return false;
      }
      txMessageCnt := ToUint8(txMessageCnt + 1);
      if txMessageCnt == INVALID_MESSAGE_ID {
        txMessageCnt := 1;
      }
      var numPackages := numBytes / PACKAGE_SIZE;
      if numBytes % PACKAGE_SIZE != 0 {
        numPackages := numPackages + 1;
      }
      var numPadding := if numBytes > PACKAGE_SIZE then numPackages * PACKAGE_SIZE - numBytes
                        else PACKAGE_SIZE - numBytes;
      assert Model() == old(Model()).(messageCnt := NextMessageCnt(old(txMessageCnt)));
      assert data[..numBytes] == old(data[..numBytes]);
      StorePackages(data, numBytes, numPackages, numPadding);
      accepted := true;
    }

    // The slot at txInsert holds the first r bytes of package p; s is the state before p
    ghost predicate Filling(s: SenderState, p: Package, r: nat)
      requires r <= PACKAGE_SIZE
      reads this, tx
    {
      && Valid() && Safe(s)
      && txInsert == s.insert && txMessageCnt == p.messageCnt
      && Model() == s.(tx := s.tx[txInsert := tx[txInsert]])
      && tx[txInsert].data[..r] == p.data[..r]
    }

    // The byte loop: fills slot after slot of the ring, byte after byte
    method StorePackages(data: array<uint8>, numBytes: uint16, packages: nat, numPadding: int)
      requires Valid() && numBytes <= data.Length
      requires packages == NumPackages(numBytes)
      requires packages > 0 ==> numPadding == packages * PACKAGE_SIZE - numBytes
      modifies this, tx
      ensures Valid()
      ensures Model() == PutAll(old(Model()), Fragment(Message(txMessageCnt, old(data[..numBytes]))))
    {
      hide Fragment, PutAll;
      ghost var m := Message(txMessageCnt, data[..numBytes]);
      ghost var frags, s0 := Fragment(m), Model();
      var numPackages, pkgIdx := packages, txInsert;
      // State after the finished packages, their number, bytes of the one under way
      ghost var s, j, r := s0, 0, 0;
      var idx := 0;
      FragmentIds(m);
      while numPackages > 0
        invariant 0 <= r < PACKAGE_SIZE && idx == PACKAGE_SIZE * j + r
        invariant 0 <= j <= packages && numPackages == packages - j
        invariant data[..numBytes] == m.bytes && txMessageCnt == m.id
        invariant Valid() && pkgIdx == txInsert && Safe(s) && s == PutAll(s0, frags[..j])
        invariant j < packages ==> Filling(s, frags[j], r)
        invariant j == packages ==> Model() == s
        decreases numPackages, PACKAGE_SIZE - r
      {
        FragmentByte(m, j, r);
        var b: uint8 := if idx < numBytes then data[idx] else 0;
        assert idx < numBytes ==> data[..numBytes][idx] == m.bytes[idx];
        StoreByte(pkgIdx, idx % PACKAGE_SIZE, b, frags[j], s);
        if idx % PACKAGE_SIZE == PACKAGE_SIZE - 1 {
          FinishPackage(pkgIdx, numPackages, numPadding, frags[j], s);
          numPackages := numPackages - 1;
          pkgIdx := txInsert;
          PutAllStep(s0, frags, j);
          s, j, r := Put(s, frags[j]), j + 1, 0;
        } else {
          r := r + 1;
        }
        idx := idx + 1;
      }
      assert frags[..packages] == frags;
    }

    method StoreByte(slot: nat, i: nat, b: uint8, ghost p: Package, ghost s: SenderState)
      requires i < PACKAGE_SIZE && b == p.data[i]
      requires Filling(s, p, i) && slot == txInsert
      modifies tx
      ensures Filling(s, p, i + 1)
    {
      AppendByte(tx[slot].data, p.data, i);
      tx[slot] := tx[slot].(data := tx[slot].data[i := b]);
      assert tx[..] == s.tx[slot := tx[slot]];
    }

    // Labels a package whose 32 bytes are written and moves on to the next slot
    method FinishPackage(slot: nat, numPackages: nat, numPadding: int,
                         ghost p: Package, ghost s: SenderState)
      requires numPackages == 1 ==> 0 <= numPadding < PACKAGE_SIZE
      requires p.packageCntd == if numPackages == 1 then -numPadding else ToInt8(numPackages)
      requires Filling(s, p, PACKAGE_SIZE) && slot == txInsert
      modifies this, tx
      ensures Valid() && Model() == Put(s, p) && txMessageCnt == old(txMessageCnt)
    {
      assert tx[slot].data == tx[slot].data[..PACKAGE_SIZE] == p.data;
      tx[slot] := tx[slot].(packageCntd := if numPackages == 1 then -numPadding
                                           else ToInt8(numPackages),
                            messageCnt := txMessageCnt);
      txInsert := txInsert + 1;
      if txInsert >= TX_CAPACITY {
        txInsert := 0;
      }
      txNumPackages := ToUint16(txNumPackages + 1);
      assert tx[..] == s.tx[slot := p];
    }

    method WritePkg() returns (pkgOut: Package)
      requires Valid()
      modifies this
      ensures Valid()
      ensures (Model(), pkgOut) == Write(old(Model()))
    {
      if txNumPackages == 0 {
        return FILLER;
      }
      pkgOut := tx[txRead];
      if pkgOut.packageCntd <= 0 {
        txDone := txDone + [pkgOut.messageCnt];
      }
      txRead := txRead + 1;
      if txRead >= TX_CAPACITY {
        txRead := 0;
      }
      txNumPackages := txNumPackages - 1;
    }
  }
}

/** Receiving side: reassembly of packages into a byte array. */
module SpiStreamReceiver {
  import opened CInts
  import opened SpiStreamFormat

  datatype ReceiverState = ReceiverState(rxNum: uint16, rxCntd: uint8, rx: seq<uint8>)

  // One call of message_rx_handler: the whole buffer and the length passed along
  datatype Delivery = Delivery(msgId: uint8, buffer: seq<uint8>, numBytes: uint16)

  function Initial(): ReceiverState {
    ReceiverState(0, 0, seq(RX_BUFFER_SIZE, _ => 0))
  }

  // The last package of a message counts as package 1
  function Position(p: Package): uint8 {
    if p.packageCntd <= 0 then 1 else p.packageCntd
  }

  function PackagesInMessage(s: ReceiverState, p: Package): uint16 {
    if s.rxCntd == 0 then Position(p)
    else if p.packageCntd >= s.rxNum then p.packageCntd
    else s.rxNum
  }

  function Offset(s: ReceiverState, p: Package): int {
    (PackagesInMessage(s, p) - Position(p)) * PACKAGE_SIZE
  }

  // The 32 bytes of the package are copied inside the receive buffer
  predicate InBounds(s: ReceiverState, p: Package) {
    |s.rx| == RX_BUFFER_SIZE &&
    (p.messageCnt != INVALID_MESSAGE_ID ==> 0 <= Offset(s, p) <= RX_BUFFER_SIZE - PACKAGE_SIZE)
  }

  function Splice(buffer: seq<uint8>, at: nat, data: seq<uint8>): (r: seq<uint8>)
    requires at + |data| <= |buffer|
    ensures |r| == |buffer|
  {
    buffer[..at] + data + buffer[at + |data|..]
  }

  /** Effect of one package, and the handler calls it causes (at most one). */
  function Receive(s: ReceiverState, p: Package): (r: (ReceiverState, seq<Delivery>))
    requires InBounds(s, p)
  {
    if p.messageCnt == INVALID_MESSAGE_ID then (s, [])
    else
      var num := PackagesInMessage(s, p);
      var rx := Splice(s.rx, Offset(s, p), p.data);
      if p.packageCntd <= 0 then
        (ReceiverState(num, 0, rx),
         [Delivery(p.messageCnt, rx, ToUint16(num * PACKAGE_SIZE + p.packageCntd))])
      else (ReceiverState(num, if s.rxCntd == 0 then Position(p) else s.rxCntd, rx), [])
  }

  class Receiver {
    var rxNumPackages: uint16
    var rxPackageCntd: uint8
    const rx: array<uint8>
    // The message_rx_handler calls made so far
    var delivered: seq<Delivery>

    ghost predicate Valid()
      reads this, rx
    {
      rx.Length == RX_BUFFER_SIZE
    }

    ghost function Model(): ReceiverState
      reads this, rx
    {
      ReceiverState(rxNumPackages, rxPackageCntd, rx[..])
    }

    constructor ()
      ensures Valid() && fresh(rx) && Model() == Initial() && delivered == []
    {
      rx := new uint8[RX_BUFFER_SIZE](_ => 0);
      rxNumPackages, rxPackageCntd, delivered := 0, 0, [];
    }

    method ReadPkg(pkgIn: Package)
      requires Valid() && InBounds(Model(), pkgIn)
      modifies this, rx
      ensures Valid()
      ensures var (s, calls) := Receive(old(Model()), pkgIn);
              Model() == s && delivered == old(delivered) + calls
    {
      if pkgIn.messageCnt == INVALID_MESSAGE_ID {
        return;
      }
      var packageCntd: uint8 := if pkgIn.packageCntd <= 0 then 1 else pkgIn.packageCntd;
      if pkgIn.packageCntd >= rxNumPackages {
        rxNumPackages := pkgIn.packageCntd;
      }
      if rxPackageCntd == 0 {
        rxNumPackages := packageCntd;
        rxPackageCntd := packageCntd;
      }
      CopyIn((rxNumPackages - packageCntd) * PACKAGE_SIZE, pkgIn.data);
      if pkgIn.packageCntd <= 0 {
        delivered := delivered + [Delivery(pkgIn.messageCnt, rx[..],
          ToUint16(rxNumPackages * PACKAGE_SIZE + pkgIn.packageCntd))];
        rxPackageCntd := 0;
      }
    }

    method CopyIn(at: nat, data: PackageData)
      requires Valid() && at + PACKAGE_SIZE <= RX_BUFFER_SIZE
      modifies rx
      ensures rx[..] == Splice(old(rx[..]), at, data)
    {
      for i := 0 to PACKAGE_SIZE
        invariant rx[..] == Splice(old(rx[..]), at, data[..i])
      {
        rx[at + i] := data[i];
        assert data[..i + 1] == data[..i] + [data[i]];
      }
      assert data[..PACKAGE_SIZE] == data;
    }
  }
}

/** Sender, wire and receiver together: what arrives is what was sent. */
module SpiStreamProtocol {
  import opened CInts
  import opened SpiStreamFormat
  import opened SpiStreamSender
  import opened SpiStreamReceiver

  // ---------------------------------------------------------------- reassembly

  // Everything a receiver can be in while no package announces more than 22 to come
  predicate Sane(s: ReceiverState) {
    && |s.rx| == RX_BUFFER_SIZE
    && s.rxNum <= RX_CAPACITY
    && (s.rxCntd != 0 ==> s.rxNum >= 1)
  }

  predicate Small(p: Package) {
    p.messageCnt != INVALID_MESSAGE_ID ==> p.packageCntd <= RX_CAPACITY
  }

  predicate AllSmall(ps: seq<Package>) {
    forall p :: p in ps ==> Small(p)
  }

  lemma SmallIsSafe(s: ReceiverState, p: Package)
    requires Sane(s) && Small(p)
    ensures InBounds(s, p) && Sane(Receive(s, p).0)
  {
  }

  function ReceiveAll(s: ReceiverState, ps: seq<Package>): (r: (ReceiverState, seq<Delivery>))
    requires Sane(s) && AllSmall(ps)
    ensures Sane(r.0)
    decreases |ps|
  {
    if ps == [] then (s, [])
    else
      var p := ps[|ps| - 1];
      var (s1, d1) := ReceiveAll(s, ps[..|ps| - 1]);
      SmallIsSafe(s1, p);
      var (s2, d2) := Receive(s1, p);
      (s2, d1 + d2)
  }

  predicate Exact(d: Delivery, m: Message) {
    && d.msgId == m.id
    && d.numBytes == |m.bytes| <= |d.buffer|
    && d.buffer[..|m.bytes|] == m.bytes
  }

  // A receiver that takes the next package for the first of a message of k packages
  predicate ReadyFor(s: ReceiverState, k: nat) {
    s.rxCntd == 0 || s.rxNum <= k
  }

  // r packages of the message have arrived and been stored in place
  predicate Assembling(s: ReceiverState, m: Message, r: nat) {
    && Sane(s)
    && r < NumPackages(|m.bytes|)
    && (r == 0 ==> ReadyFor(s, NumPackages(|m.bytes|)))
    && (r > 0 ==> s.rxCntd != 0 && s.rxNum == NumPackages(|m.bytes|))
    && forall j :: 0 <= j < PACKAGE_SIZE * r && j < |m.bytes| ==> s.rx[j] == m.bytes[j]
  }

  lemma AssemblingIsSane(s: ReceiverState, m: Message, r: nat)
    ensures Assembling(s, m, r) ==> Sane(s) && (r > 0 ==> s.rxCntd != 0)
  {
  }

  lemma FragmentFields(m: Message, r: nat)
    requires Sendable(m.bytes) && r < NumPackages(|m.bytes|)
    ensures var k, p := NumPackages(|m.bytes|), Fragment(m)[r];
            && p.messageCnt == m.id && p.data == Chunk(m.bytes, r)
            && 1 <= k <= RX_CAPACITY
            && p.packageCntd == (if r == k - 1 then |m.bytes| - PACKAGE_SIZE * k else k - r)
            && (r == k - 1 ==> p.packageCntd <= 0)
  {
    hide Chunk;
  }

  // The package goes behind the r packages already stored
  lemma PlaceOfPackage(s: ReceiverState, m: Message, r: nat)
    requires m.id != INVALID_MESSAGE_ID && Sendable(m.bytes) && Assembling(s, m, r)
    ensures var k, p := NumPackages(|m.bytes|), Fragment(m)[r];
            && PackagesInMessage(s, p) == k && Position(p) == k - r
            && Offset(s, p) == PACKAGE_SIZE * r && InBounds(s, p) && Small(p)
  {
    FragmentFields(m, r);
    hide Fragment, Chunk, NumPackages;
  }

  lemma StoredBytes(rx: seq<uint8>, bytes: seq<uint8>, r: nat)
    requires PACKAGE_SIZE * (r + 1) <= |rx|
    requires forall j :: 0 <= j < PACKAGE_SIZE * r && j < |bytes| ==> rx[j] == bytes[j]
    ensures var rx' := Splice(rx, PACKAGE_SIZE * r, Chunk(bytes, r));
            forall j :: 0 <= j < PACKAGE_SIZE * (r + 1) && j < |bytes| ==> rx'[j] == bytes[j]
  {
    var at, d := PACKAGE_SIZE * r, Chunk(bytes, r);
    var rx' := Splice(rx, at, d);
    forall j | 0 <= j < at + PACKAGE_SIZE && j < |bytes|
      ensures rx'[j] == bytes[j]
    {
      if j >= at {
        assert rx'[j] == d[j - at];
      }
    }
  }

  lemma AssembleStep(s: ReceiverState, m: Message, r: nat)
    requires m.id != INVALID_MESSAGE_ID && Sendable(m.bytes) && Assembling(s, m, r)
    ensures Small(Fragment(m)[r]) && InBounds(s, Fragment(m)[r])
    ensures var k := NumPackages(|m.bytes|);
            var (s', ds) := Receive(s, Fragment(m)[r]);
            if r < k - 1 then ds == [] && Assembling(s', m, r + 1)
            else |ds| == 1 && Exact(ds[0], m) && Sane(s') && s'.rxCntd == 0
  {
    var k := NumPackages(|m.bytes|);
    FragmentFields(m, r);
    PlaceOfPackage(s, m, r);
    StoredBytes(s.rx, m.bytes, r);
    assert |m.bytes| <= PACKAGE_SIZE * k;
    hide Fragment, Chunk, Splice, NumPackages, Offset, PackagesInMessage, Position;
  }

  lemma FragmentIsSmall(m: Message)
    requires Sendable(m.bytes)
    ensures AllSmall(Fragment(m))
  {
  }

  /** A message that starts on a ready receiver is delivered by its last package, not before. */
  lemma {:induction false} Assemble(s: ReceiverState, m: Message, i: nat)
    requires m.id != INVALID_MESSAGE_ID && Sendable(m.bytes) && Assembling(s, m, 0)
    requires i <= NumPackages(|m.bytes|)
    ensures AllSmall(Fragment(m)[..i])
    ensures var (s', ds) := ReceiveAll(s, Fragment(m)[..i]);
            if i < NumPackages(|m.bytes|) then ds == [] && Assembling(s', m, i)
            else |ds| == 1 && Exact(ds[0], m) && s'.rxCntd == 0
  {
    hide Fragment, Receive, InBounds, Assembling;
    FragmentIsSmall(m);
    AssemblingIsSane(s, m, 0);
    if i > 0 {
      Assemble(s, m, i - 1);
      var s1 := ReceiveAll(s, Fragment(m)[..i - 1]).0;
      AssembleStep(s1, m, i - 1);
      assert Fragment(m)[..i][..i - 1] == Fragment(m)[..i - 1];
    }
  }

  lemma {:induction false} ReceiveAllAppend(s: ReceiverState, ps: seq<Package>, qs: seq<Package>)
    requires Sane(s)
    requires AllSmall(ps + qs)
    ensures AllSmall(ps) && AllSmall(qs)
    ensures var (s1, d1) := ReceiveAll(s, ps);
            var (s2, d2) := ReceiveAll(s1, qs);
            ReceiveAll(s, ps + qs) == (s2, d1 + d2)
    decreases |qs|
  {
    assert forall p :: p in ps || p in qs ==> p in ps + qs;
    if qs == [] {
      assert ps + qs == ps;
      var ds := ReceiveAll(s, ps).1;
      assert ds + [] == ds;
    } else {
      var front, p := qs[..|qs| - 1], qs[|qs| - 1];
      assert (ps + qs)[..|ps + qs| - 1] == ps + front && (ps + qs)[|ps + qs| - 1] == p;
      ReceiveAllAppend(s, ps, front);
      var (s1, d1) := ReceiveAll(s, ps);
      var (s2, d2) := ReceiveAll(s1, front);
      var (s3, d3) := Receive(s2, p);
      assert ReceiveAll(s, ps + qs) == (s3, (d1 + d2) + d3);
      assert (d1 + d2) + d3 == d1 + (d2 + d3);
    }
  }

  lemma LateStep(s: ReceiverState, m: Message, r: nat)
    requires m.id != INVALID_MESSAGE_ID && Sendable(m.bytes) && r < NumPackages(|m.bytes|)
    requires Sane(s) && s.rxCntd != 0 && s.rxNum > NumPackages(|m.bytes|)
    ensures Small(Fragment(m)[r]) && InBounds(s, Fragment(m)[r])
    ensures var (s', ds) := Receive(s, Fragment(m)[r]);
            if r < NumPackages(|m.bytes|) - 1 then
              ds == [] && Sane(s') && s'.rxNum == s.rxNum && s'.rxCntd != 0
            else |ds| == 1 && ds[0].numBytes > |m.bytes|
  {
    FragmentFields(m, r);
    hide Fragment, Chunk, Splice, NumPackages;
  }

  // A message shorter than the one being assembled leaves the package count as it is
  lemma {:induction false} AssembleLate(s: ReceiverState, m: Message, i: nat)
    requires m.id != INVALID_MESSAGE_ID && Sendable(m.bytes)
    requires Sane(s) && s.rxCntd != 0 && s.rxNum > NumPackages(|m.bytes|)
    requires i <= NumPackages(|m.bytes|)
    ensures AllSmall(Fragment(m)[..i])
    ensures var (s', ds) := ReceiveAll(s, Fragment(m)[..i]);
            if i < NumPackages(|m.bytes|) then
              ds == [] && s'.rxNum == s.rxNum && s'.rxCntd != 0
            else |ds| == 1 && ds[0].numBytes > |m.bytes|
  {
    hide Fragment, Receive, InBounds;
    FragmentIsSmall(m);
    if i > 0 {
      AssembleLate(s, m, i - 1);
      LateStep(ReceiveAll(s, Fragment(m)[..i - 1]).0, m, i - 1);
      assert Fragment(m)[..i][..i - 1] == Fragment(m)[..i - 1];
    }
  }

  /**
   When a message is lost in the middle, the next whole message is delivered exactly if
   and only if it has at least as many packages as the receiver is counting.
   */
  lemma ResyncIff(s: ReceiverState, m: Message)
    requires Sane(s) && m.id != INVALID_MESSAGE_ID && Sendable(m.bytes)
    ensures AllSmall(Fragment(m))
    ensures var ds := ReceiveAll(s, Fragment(m)).1;
            |ds| == 1 && (Exact(ds[0], m) <==> ReadyFor(s, NumPackages(|m.bytes|)))
  {
    FragmentIsSmall(m);
    var k := NumPackages(|m.bytes|);
    assert Fragment(m)[..k] == Fragment(m);
    if ReadyFor(s, k) {
      Assemble(s, m, k);
    } else {
      AssembleLate(s, m, k);
    }
  }

  // ---------------------------------------------------------------- how long a message may be

  // Every package of ps, received one after the other, is copied inside the buffer
  predicate AllInBounds(s: ReceiverState, ps: seq<Package>)
    decreases |ps|
  {
    ps == [] || (InBounds(s, ps[0]) && AllInBounds(Receive(s, ps[0]).0, ps[1..]))
  }

  // Ready for package r of a message of k packages
  predicate Counting(s: ReceiverState, k: nat, r: nat) {
    && |s.rx| == RX_BUFFER_SIZE
    && (if r == 0 then s.rxCntd == 0 else s.rxCntd != 0 && s.rxNum == k)
  }

  // Messages whose package count fits the countdown of 8 bits
  predicate Countable(bytes: seq<uint8>) {
    1 <= |bytes| <= PACKAGE_SIZE * 127
  }

  lemma CountedFields(m: Message, r: nat)
    requires Countable(m.bytes) && r < NumPackages(|m.bytes|)
    ensures var k, p := NumPackages(|m.bytes|), Fragment(m)[r];
            && k <= 127 && p.messageCnt == m.id && Position(p) == k - r
            && (if r < k - 1 then p.packageCntd == k - r else p.packageCntd <= 0)
  {
    hide Chunk;
  }

  lemma CountingStep(s: ReceiverState, m: Message, r: nat)
    requires m.id != INVALID_MESSAGE_ID && Countable(m.bytes) && r < NumPackages(|m.bytes|)
    requires Counting(s, NumPackages(|m.bytes|), r)
    ensures var k, p := NumPackages(|m.bytes|), Fragment(m)[r];
            && (InBounds(s, p) <==> r < RX_CAPACITY)
            && (InBounds(s, p) && r < k - 1 ==> Counting(Receive(s, p).0, k, r + 1))
  {
    CountedFields(m, r);
    hide Fragment, NumPackages, Position, Splice;
  }

  lemma {:induction false} RestInBounds(s: ReceiverState, m: Message, r: nat)
    requires m.id != INVALID_MESSAGE_ID && Countable(m.bytes)
    requires r < NumPackages(|m.bytes|) && r <= RX_CAPACITY
    requires Counting(s, NumPackages(|m.bytes|), r)
    ensures AllInBounds(s, Fragment(m)[r..]) <==> NumPackages(|m.bytes|) <= RX_CAPACITY
    decreases RX_CAPACITY - r
  {
    hide Fragment, NumPackages, Counting, InBounds, Receive;
    var f := Fragment(m);
    CountingStep(s, m, r);
    assert f[r..][0] == f[r] && f[r..][1..] == f[r + 1..];
    if r + 1 == |f| {
      assert f[r + 1..] == [];
    } else if InBounds(s, f[r]) {
      RestInBounds(Receive(s, f[r]).0, m, r + 1);
    }
  }

  /**
   A receiver between messages keeps every copy of a message in the receive buffer exactly
   when the message has at most 704 bytes; the header allows 720.
   */
  lemma MessageInBoundsIff(s: ReceiverState, m: Message)
    requires |s.rx| == RX_BUFFER_SIZE && s.rxCntd == 0
    requires m.id != INVALID_MESSAGE_ID && Countable(m.bytes)
    ensures AllInBounds(s, Fragment(m)) <==> |m.bytes| <= 704
  {
    assert Fragment(m)[0..] == Fragment(m);
    RestInBounds(s, m, 0);
    hide AllInBounds, Fragment;
  }

  // ---------------------------------------------------------------- the whole link

  function NonFiller(ps: seq<Package>): seq<Package> {
    if ps == [] then []
    else (if ps[0].messageCnt == INVALID_MESSAGE_ID then [] else [ps[0]]) + NonFiller(ps[1..])
  }

  lemma NonFillerAppend(ps: seq<Package>, p: Package)
    ensures NonFiller(ps + [p]) ==
            NonFiller(ps) + (if p.messageCnt == INVALID_MESSAGE_ID then [] else [p])
  {
    if ps == [] {
      assert ps + [p] == [p] && [p][1..] == [];
    } else {
      assert (ps + [p])[1..] == ps[1..] + [p];
    }
  }

  /** wire: packages written and not yet read; sent and delivered: what happened so far. */
  datatype Link = Link(sender: SenderState, wire: seq<Package>, receiver: ReceiverState,
                       sent: seq<Message>, delivered: seq<Delivery>)

  datatype Event = EnqueueMsg(bytes: seq<uint8>, noWait: bool) | WritePkg | ReadPkg

  predicate Init(l: Link) {
    && Ring(l.sender) && l.sender.num == 0 && l.sender.messageCnt == 0 && l.sender.done == []
    && l.receiver == Initial()
    && l.wire == [] && l.sent == [] && l.delivered == []
  }

  // What is asked of the application: messages of 1 to 704 bytes, and room in the ring
  predicate Allowed(l: Link, e: Event) {
    e.EnqueueMsg? && Accepts(l.sender, e.noWait) ==>
      Sendable(e.bytes) && l.sender.num + NumPackages(|e.bytes|) <= TX_CAPACITY
  }

  /** One step of the link. */
  predicate Next(l: Link, e: Event, l': Link) {
    && Safe(l.sender)
    && match e
       case EnqueueMsg(bytes, noWait) =>
         var sender := Enqueue(l.sender, bytes, noWait);
         l' == l.(sender := sender,
                  sent := if Accepts(l.sender, noWait)
                          then l.sent + [Message(sender.messageCnt, bytes)] else l.sent)
       case WritePkg =>
         var (sender, p) := Write(l.sender);
         l' == l.(sender := sender, wire := l.wire + [p])
       case ReadPkg =>
         if l.wire == [] then l' == l
         else
           && InBounds(l.receiver, l.wire[0])
           && var (receiver, calls) := Receive(l.receiver, l.wire[0]);
              l' == l.(receiver := receiver, wire := l.wire[1..],
                       delivered := l.delivered + calls)
  }

  // q is what remains of the sent messages after d whole messages and r packages
  predicate Remaining(q: seq<Package>, sent: seq<Message>, d: nat, r: nat) {
    if d < |sent| then
      && r < NumPackages(|sent[d].bytes|)
      && q == Fragment(sent[d])[r..] + FragmentAll(sent[d + 1..])
    else d == |sent| && r == 0 && q == []
  }

  predicate WellFormed(sent: seq<Message>) {
    forall m :: m in sent ==> m.id != INVALID_MESSAGE_ID && Sendable(m.bytes)
  }

  lemma RemainingPush(q: seq<Package>, sent: seq<Message>, d: nat, r: nat, m: Message)
    requires Remaining(q, sent, d, r) && Sendable(m.bytes)
    ensures Remaining(q + Fragment(m), sent + [m], d, r)
  {
    if d < |sent| {
      assert (sent + [m])[d + 1..] == sent[d + 1..] + [m];
      FragmentAllAppend(sent[d + 1..], m);
    } else {
      assert (sent + [m])[d + 1..] == [];
      assert Fragment(m)[0..] == Fragment(m);
    }
  }

  lemma RemainingPop(q: seq<Package>, sent: seq<Message>, d: nat, r: nat)
    requires Remaining(q, sent, d, r) && WellFormed(sent) && q != []
    ensures d < |sent| && q[0] == Fragment(sent[d])[r]
    ensures q[0].messageCnt == sent[d].id
    ensures if r + 1 < NumPackages(|sent[d].bytes|) then
              q[0].packageCntd > 0 && Remaining(q[1..], sent, d, r + 1)
            else
              q[0].packageCntd <= 0 && Remaining(q[1..], sent, d + 1, 0)
  {
    var f := Fragment(sent[d]);
    assert sent[d] in sent;
    assert q[1..] == f[r..][1..] + FragmentAll(sent[d + 1..]);
    if r + 1 < |f| {
      assert f[r..][1..] == f[r + 1..];
    } else {
      assert f[r..][1..] == [];
      if d + 1 < |sent| {
        var f' := Fragment(sent[d + 1]);
        assert f'[0..] == f';
        assert sent[d + 1..][1..] == sent[d + 2..];
        assert sent[d + 1] in sent;
      }
    }
  }

  function Ids(ms: seq<Message>): seq<uint8> {
    seq(|ms|, i requires 0 <= i < |ms| => ms[i].id)
  }

  ghost predicate SenderInv(l: Link) {
    && Ring(l.sender)
    && |l.sender.done| <= |l.sent|
    && l.sender.done == Ids(l.sent[..|l.sender.done|])
    && exists r: nat :: Remaining(Queue(l.sender), l.sent, |l.sender.done|, r)
  }

  // The receiver has the first r packages of message d and nothing else under way
  predicate Awaits(s: ReceiverState, sent: seq<Message>, d: nat, r: nat) {
    if d < |sent| then Assembling(s, sent[d], r) else s.rxCntd == 0
  }

  lemma AwaitsMore(s: ReceiverState, sent: seq<Message>, d: nat, r: nat, q: seq<Package>, m: Message)
    requires Sane(s) && Awaits(s, sent, d, r) && Remaining(q, sent, d, r) && Sendable(m.bytes)
    ensures Awaits(s, sent + [m], d, r)
  {
  }

  lemma ReadyIsAssembling(s: ReceiverState, m: Message)
    requires Sane(s) && s.rxCntd == 0 && Sendable(m.bytes)
    ensures Assembling(s, m, 0)
  {
  }

  lemma FillerIgnored(s: ReceiverState, p: Package)
    requires p.messageCnt == INVALID_MESSAGE_ID && InBounds(s, p)
    ensures Receive(s, p) == (s, [])
  {
  }

  ghost predicate ReceiverInv(l: Link) {
    && Ring(l.sender)
    && |l.delivered| <= |l.sent|
    && (forall i :: 0 <= i < |l.delivered| ==> Exact(l.delivered[i], l.sent[i]))
    && Sane(l.receiver)
    && exists r: nat ::
      && Remaining(NonFiller(l.wire) + Queue(l.sender), l.sent, |l.delivered|, r)
      && Awaits(l.receiver, l.sent, |l.delivered|, r)
  }

  ghost predicate Inv(l: Link) {
    WellFormed(l.sent) && SenderInv(l) && ReceiverInv(l)
  }

  lemma InitInv(l: Link)
    requires Init(l)
    ensures Inv(l)
  {
    assert Remaining(Queue(l.sender), l.sent, 0, 0);
    assert NonFiller(l.wire) + Queue(l.sender) == [];
  }

  lemma EnqueueSenderInv(l: Link, bytes: seq<uint8>, noWait: bool, l': Link)
    requires SenderInv(l) && Accepts(l.sender, noWait)
    requires Allowed(l, EnqueueMsg(bytes, noWait)) && Next(l, EnqueueMsg(bytes, noWait), l')
    ensures SenderInv(l')
  {
    hide Enqueue, Queue, Fragment, FragmentAll, Remaining, Ring;
    var d, m := |l.sender.done|, l'.sent[|l.sent|];
    EnqueueQueues(l.sender, bytes, noWait);
    EnqueueKeeps(l.sender, bytes, noWait);
    var r: nat :| Remaining(Queue(l.sender), l.sent, d, r);
    RemainingPush(Queue(l.sender), l.sent, d, r, m);
    assert l'.sent[..d] == l.sent[..d];
  }

  lemma EnqueueReceiverInv(l: Link, bytes: seq<uint8>, noWait: bool, l': Link)
    requires ReceiverInv(l) && Accepts(l.sender, noWait)
    requires Allowed(l, EnqueueMsg(bytes, noWait)) && Next(l, EnqueueMsg(bytes, noWait), l')
    ensures ReceiverInv(l')
  {
    hide Enqueue, Queue, Fragment, FragmentAll, NonFiller, Remaining, Awaits, Sane, Ring, Exact;
    EnqueueQueues(l.sender, bytes, noWait);
    var m := l'.sent[|l.sent|];
    var q, d := NonFiller(l.wire) + Queue(l.sender), |l.delivered|;
    var r: nat :| Remaining(q, l.sent, d, r) && Awaits(l.receiver, l.sent, d, r);
    RemainingPush(q, l.sent, d, r, m);
    AwaitsMore(l.receiver, l.sent, d, r, q, m);
    assert q + Fragment(m) == NonFiller(l'.wire) + Queue(l'.sender);
  }

  lemma EnqueueInv(l: Link, bytes: seq<uint8>, noWait: bool, l': Link)
    requires Inv(l) && Allowed(l, EnqueueMsg(bytes, noWait)) && Next(l, EnqueueMsg(bytes, noWait), l')
    ensures Inv(l')
  {
    hide SenderInv, ReceiverInv, Sendable;
    if Accepts(l.sender, noWait) {
      EnqueueSenderInv(l, bytes, noWait, l');
      EnqueueReceiverInv(l, bytes, noWait, l');
      EnqueueKeeps(l.sender, bytes, noWait);
    }
  }

  lemma WriteInv(l: Link, l': Link)
    requires Inv(l) && Next(l, WritePkg, l')
    ensures Inv(l')
  {
    hide Write, Queue, Fragment, FragmentAll, NonFiller, Remaining, Awaits, Sane, Ring;
    var (sender, p) := Write(l.sender);
    var q, d := Queue(l.sender), |l.sender.done|;
    WriteDequeues(l.sender);
    NonFillerAppend(l.wire, p);
    if q != [] {
      var r: nat :| Remaining(q, l.sent, d, r);
      RemainingPop(q, l.sent, d, r);
      assert l.sent[d] in l.sent;
      assert p.packageCntd <= 0 ==> sender.done == Ids(l.sent[..d + 1]) by {
        assert l.sent[..d + 1] == l.sent[..d] + [l.sent[d]];
      }
      assert p.packageCntd > 0 ==> sender.done == l.sender.done;
      assert NonFiller(l'.wire) + Queue(sender) == NonFiller(l.wire) + q;
    } else {
      assert NonFiller(l'.wire) == NonFiller(l.wire);
    }
    assert SenderInv(l');
  }

  lemma ReadInv(l: Link, l': Link)
    requires Inv(l) && Next(l, ReadPkg, l')
    ensures Inv(l')
  {
    hide Receive, Queue, Fragment, FragmentAll, Remaining, Assembling, Sane, Ring, InBounds;
    if l.wire != [] && l.wire[0].messageCnt == INVALID_MESSAGE_ID {
      FillerIgnored(l.receiver, l.wire[0]);
      assert l'.delivered == l.delivered && NonFiller(l'.wire) == NonFiller(l.wire);
    } else if l.wire != [] {
      var q, d := NonFiller(l.wire) + Queue(l.sender), |l.delivered|;
      var r: nat :| Remaining(q, l.sent, d, r) && Awaits(l.receiver, l.sent, d, r);
      RemainingPop(q, l.sent, d, r);
      assert l.sent[d] in l.sent;
      AssembleStep(l.receiver, l.sent[d], r);
      AssemblingIsSane(l'.receiver, l.sent[d], r + 1);
      assert q[1..] == NonFiller(l'.wire) + Queue(l'.sender);
      if l'.receiver.rxCntd == 0 && d + 1 < |l.sent| {
        assert l.sent[d + 1] in l.sent;
        ReadyIsAssembling(l'.receiver, l.sent[d + 1]);
      }
    }
  }

  lemma StepInv(l: Link, e: Event, l': Link)
    requires Inv(l) && Allowed(l, e) && Next(l, e, l')
    ensures Inv(l')
  {
    match e
    case EnqueueMsg(bytes, noWait) => EnqueueInv(l, bytes, noWait, l');
    case WritePkg => WriteInv(l, l');
    case ReadPkg => ReadInv(l, l');
  }

  /** A run: states[i + 1] follows states[i] by events[i]. */
  predicate Run(states: seq<Link>, events: seq<Event>) {
    && |states| == |events| + 1
    && Init(states[0])
    && forall i :: 0 <= i < |events| ==>
         Allowed(states[i], events[i]) && Next(states[i], events[i], states[i + 1])
  }

  lemma {:induction false} RunInv(states: seq<Link>, events: seq<Event>, n: nat)
    requires Run(states, events) && n < |states|
    ensures Inv(states[n])
  {
    if n == 0 {
      InitInv(states[0]);
    } else {
      RunInv(states, events, n - 1);
      StepInv(states[n - 1], events[n - 1], states[n]);
    }
  }

  lemma NextReadInBounds(l: Link)
    requires Inv(l) && l.wire != []
    ensures InBounds(l.receiver, l.wire[0])
  {
    if l.wire[0].messageCnt != INVALID_MESSAGE_ID {
      var q, d := NonFiller(l.wire) + Queue(l.sender), |l.delivered|;
      var r: nat :| Remaining(q, l.sent, d, r) && Awaits(l.receiver, l.sent, d, r);
      RemainingPop(q, l.sent, d, r);
      assert l.sent[d] in l.sent;
      AssembleStep(l.receiver, l.sent[d], r);
    }
  }

  /**
   The guarantee of the protocol, at every point of every run: the receive handler was
   called for an initial part of the sent messages, in order, each with its exact bytes
   and length; the transmit handler was called once for each message whose packages have
   all left the ring, and what the ring holds is the rest; no package is ever copied out
   of bounds; and once ring and wire are empty nothing is missing.
   */
  lemma Delivered(states: seq<Link>, events: seq<Event>, n: nat)
    requires Run(states, events) && n < |states|
    ensures var l := states[n];
            && Ring(l.sender)
            && |l.delivered| <= |l.sent|
            && (forall i :: 0 <= i < |l.delivered| ==> Exact(l.delivered[i], l.sent[i]))
            && |l.sender.done| <= |l.sent|
            && l.sender.done == Ids(l.sent[..|l.sender.done|])
            && (exists r: nat :: Remaining(Queue(l.sender), l.sent, |l.sender.done|, r))
            && (l.wire != [] ==> InBounds(l.receiver, l.wire[0]))
            && (l.sender.num == 0 ==> |l.sender.done| == |l.sent|)
            && (l.sender.num == 0 && NonFiller(l.wire) == [] ==> |l.delivered| == |l.sent|)
  {
    RunInv(states, events, n);
    var l := states[n];
    if l.wire != [] { NextReadInBounds(l); }
    var q, d := NonFiller(l.wire) + Queue(l.sender), |l.delivered|;
    var r: nat :| Remaining(q, l.sent, d, r) && Awaits(l.receiver, l.sent, d, r);
    if l.sender.num == 0 && NonFiller(l.wire) == [] { assert q == []; }
  }

  /**
   What a call of the enqueue function does in a run: with NO_WAIT, or with at most 86
   packages waiting, the message is sent; with 87 or 88 waiting nothing happens at all.
   */
  lemma EnqueueSends(states: seq<Link>, events: seq<Event>, n: nat)
    requires Run(states, events) && n < |events| && events[n].EnqueueMsg?
    ensures var (l, l', e) := (states[n], states[n + 1], events[n]);
            if e.noWait || l.sender.num <= 86 then
              l'.sent == l.sent + [Message(l'.sender.messageCnt, e.bytes)]
            else l' == l
  {
    RunInv(states, events, n);
    RefusedIff(states[n].sender, events[n].bytes, events[n].noWait);
    hide Fragment, SenderInv, ReceiverInv, WellFormed;
  }

  // The id of the i-th message of a run: 1 to 255, then from 1 again
  predicate Numbered(sent: seq<Message>) {
    forall i :: 0 <= i < |sent| ==> sent[i].id == 1 + i % 255
  }

  // The message count is the id of the last message sent
  predicate CountShows(l: Link) {
    l.sender.messageCnt == if l.sent == [] then 0 else 1 + (|l.sent| - 1) % 255
  }

  lemma EnqueueNumbers(l: Link, bytes: seq<uint8>, noWait: bool, l': Link)
    requires Next(l, EnqueueMsg(bytes, noWait), l') && Numbered(l.sent) && CountShows(l)
    ensures Numbered(l'.sent) && CountShows(l')
  {
    hide Fragment;
  }

  lemma {:induction false} NumbersInOrder(states: seq<Link>, events: seq<Event>, n: nat)
    requires Run(states, events) && n < |states|
    ensures Numbered(states[n].sent) && CountShows(states[n])
  {
    hide Numbered, CountShows, Enqueue, Receive, Allowed, InBounds;
    if n == 0 {
      NothingSent(states[0]);
    } else {
      NumbersInOrder(states, events, n - 1);
      var e := events[n - 1];
      if e.EnqueueMsg? {
        EnqueueNumbers(states[n - 1], e.bytes, e.noWait, states[n]);
      } else {
        OthersSendNothing(states[n - 1], e, states[n]);
      }
    }
  }

  lemma NothingSent(l: Link)
    requires Init(l)
    ensures Numbered(l.sent) && CountShows(l)
  {
  }

  lemma OthersSendNothing(l: Link, e: Event, l': Link)
    requires Next(l, e, l') && !e.EnqueueMsg?
    ensures Numbered(l.sent) ==> Numbered(l'.sent)
    ensures CountShows(l) ==> CountShows(l')
  {
  }

  /**
   The messages of a run are numbered from 1 to 255 and then from 1 again, and the calls
   of the receive handler carry these numbers in order.
   */
  lemma MessagesAreNumbered(states: seq<Link>, events: seq<Event>, n: nat)
    requires Run(states, events) && n < |states|
    ensures var l := states[n];
            && |l.delivered| <= |l.sent|
            && (forall i :: 0 <= i < |l.sent| ==> l.sent[i].id == 1 + i % 255)
            && forall i :: 0 <= i < |l.delivered| ==> l.delivered[i].msgId == 1 + i % 255
  {
    hide Run, Ring, Remaining, Queue, NonFiller, InBounds, Ids;
    Delivered(states, events, n);
    NumbersInOrder(states, events, n);
  }

  lemma {:induction false} WritesEmptyRing(states: seq<Link>, events: seq<Event>, n: nat, w: nat)
    requires Run(states, events) && n + w <= |events|
    requires forall i :: n <= i < n + w ==> events[i] == WritePkg
    requires w <= states[n].sender.num
    ensures states[n + w].sender.num == states[n].sender.num - w
    ensures |states[n + w].wire| == |states[n].wire| + w
    ensures states[n + w].sent == states[n].sent
  {
    if w > 0 { WritesEmptyRing(states, events, n, w - 1); }
  }

  lemma {:induction false} ReadsEmptyWire(states: seq<Link>, events: seq<Event>, n: nat, k: nat)
    requires Run(states, events) && n + k <= |events|
    requires forall i :: n <= i < n + k ==> events[i] == ReadPkg
    requires k <= |states[n].wire|
    ensures |states[n + k].wire| == |states[n].wire| - k
    ensures states[n + k].sender == states[n].sender && states[n + k].sent == states[n].sent
  {
    if k > 0 { ReadsEmptyWire(states, events, n, k - 1); }
  }

  /** Liveness: writing and reading what is pending delivers everything sent so far. */
  lemma DrainDelivers(states: seq<Link>, events: seq<Event>, n: nat)
    requires Run(states, events) && n < |states|
    requires var (w, k) := (states[n].sender.num, states[n].sender.num + |states[n].wire|);
             && |events| == n + w + k
             && (forall i :: n <= i < n + w ==> events[i] == WritePkg)
             && forall i :: n + w <= i < n + w + k ==> events[i] == ReadPkg
    ensures var l := states[|events|];
            && l.sent == states[n].sent
            && |l.delivered| == |l.sent|
            && l.sender.done == Ids(l.sent)
            && forall i :: 0 <= i < |l.sent| ==> Exact(l.delivered[i], l.sent[i])
  {
    var w := states[n].sender.num;
    WritesEmptyRing(states, events, n, w);
    ReadsEmptyWire(states, events, n + w, w + |states[n].wire|);
    Delivered(states, events, |events|);
    var l := states[|events|];
    assert l.sent[..|l.sent|] == l.sent;
  }
}
