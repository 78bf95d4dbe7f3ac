/** The SPI stream when packages are lost on the wire, and fillers are sent in between. */
module SpiStreamLoss {
  import opened CInts
  import opened SpiStreamFormat
  import opened SpiStreamSender
  import opened SpiStreamReceiver
  import opened SpiStreamProtocol

  lemma SmallSlice(ps: seq<Package>, i: nat, j: nat)
    requires AllSmall(ps) && i <= j <= |ps|
    ensures AllSmall(ps[i..j])
  {
    hide Small;
  }

  lemma SmallTogether(ps: seq<Package>, qs: seq<Package>)
    requires AllSmall(ps) && AllSmall(qs)
    ensures AllSmall(ps + qs)
  {
    hide Small;
  }

  // ---------------------------------------------------------------- fillers

  lemma {:induction false} SmallIffNonFiller(ps: seq<Package>)
    ensures AllSmall(ps) <==> AllSmall(NonFiller(ps))
  {
    if ps != [] {
      SmallIffNonFiller(ps[1..]);
      assert AllSmall(ps) <==> Small(ps[0]) && AllSmall(ps[1..]) by {
        assert forall p :: p in ps <==> p == ps[0] || p in ps[1..];
      }
      var n := NonFiller(ps[1..]);
      assert forall p :: p in [ps[0]] + n <==> p == ps[0] || p in n;
    }
  }

  /** Fillers change nothing: not the receiver, not what is delivered. */
  lemma {:induction false} FillersIgnored(s: ReceiverState, ps: seq<Package>)
    requires Sane(s) && AllSmall(ps)
    ensures AllSmall(NonFiller(ps))
    ensures ReceiveAll(s, ps) == ReceiveAll(s, NonFiller(ps))
    decreases |ps|
  {
    SmallIffNonFiller(ps);
    if ps != [] {
      hide Receive, Small, InBounds, NonFiller;
      var front, p := ps[..|ps| - 1], ps[|ps| - 1];
      assert ps == front + [p];
      NonFillerAppend(front, p);
      FillersIgnored(s, front);
      var n := NonFiller(front);
      if p.messageCnt == INVALID_MESSAGE_ID {
        SmallIsSafe(ReceiveAll(s, front).0, p);
        FillerIgnored(ReceiveAll(s, front).0, p);
        var ds := ReceiveAll(s, front).1;
        assert NonFiller(ps) == n && ds + [] == ds;
      } else {
        assert (n + [p])[..|n|] == n;
      }
    }
  }

  // ---------------------------------------------------------------- resynchronisation

  predicate IsLast(p: Package) {
    p.messageCnt != INVALID_MESSAGE_ID && p.packageCntd <= 0
  }

  // Whole message on a receiver between messages
  lemma DeliversNext(s: ReceiverState, m: Message)
    requires Sane(s) && s.rxCntd == 0
    requires m.id != INVALID_MESSAGE_ID && Sendable(m.bytes)
    ensures AllSmall(Fragment(m))
    ensures var (s', ds) := ReceiveAll(s, Fragment(m));
            |ds| == 1 && Exact(ds[0], m) && s'.rxCntd == 0
  {
    FragmentIsSmall(m);
    ReadyIsAssembling(s, m);
    Assemble(s, m, NumPackages(|m.bytes|));
    assert Fragment(m)[..NumPackages(|m.bytes|)] == Fragment(m);
  }

  lemma AfterLast(s: ReceiverState, before: seq<Package>, last: Package)
    requires Sane(s) && AllSmall(before) && IsLast(last)
    ensures AllSmall(before + [last]) && ReceiveAll(s, before + [last]).0.rxCntd == 0
  {
    assert (before + [last])[..|before|] == before;
  }

  /**
   Resynchronisation: whatever the receiver went through, a message that arrives whole after
   the last package of any message is delivered exactly, with fillers before, inside and
   behind it.
   */
  lemma ResyncAfterLast(s: ReceiverState, before: seq<Package>, last: Package,
                        arriving: seq<Package>, m: Message)
    requires Sane(s) && AllSmall(before) && IsLast(last)
    requires m.id != INVALID_MESSAGE_ID && Sendable(m.bytes) && NonFiller(arriving) == Fragment(m)
    ensures AllSmall(before + [last]) && AllSmall(before + [last] + arriving)
    ensures exists d ::
      && Exact(d, m)
      && ReceiveAll(s, before + [last] + arriving).1 == ReceiveAll(s, before + [last]).1 + [d]
  {
    AfterLast(s, before, last);
    var s1 := ReceiveAll(s, before + [last]).0;
    DeliversNext(s1, m);
    SmallIffNonFiller(arriving);
    FillersIgnored(s1, arriving);
    assert AllSmall(before + [last] + arriving);
    ReceiveAllAppend(s, before + [last], arriving);
    var ds := ReceiveAll(s1, arriving).1;
    assert ds == [ds[0]];
  }

  // ---------------------------------------------------------------- losing packages

  /** The packages that are not lost. */
  function Kept(ps: seq<Package>, keep: seq<bool>): seq<Package>
    requires |keep| == |ps|
  {
    if ps == [] then [] else (if keep[0] then [ps[0]] else []) + Kept(ps[1..], keep[1..])
  }

  lemma {:induction false} KeptSplit(ps: seq<Package>, keep: seq<bool>, i: nat)
    requires |keep| == |ps| && i <= |ps|
    ensures Kept(ps, keep) == Kept(ps[..i], keep[..i]) + Kept(ps[i..], keep[i..])
  {
    if i == 0 {
      assert ps[0..] == ps && keep[0..] == keep;
    } else {
      KeptSplit(ps[1..], keep[1..], i - 1);
      assert ps[..i][1..] == ps[1..][..i - 1] && keep[..i][1..] == keep[1..][..i - 1];
      assert ps[i..] == ps[1..][i - 1..] && keep[i..] == keep[1..][i - 1..];
    }
  }

  lemma {:induction false} KeptWhole(ps: seq<Package>, keep: seq<bool>)
    requires |keep| == |ps| && forall j :: 0 <= j < |keep| ==> keep[j]
    ensures Kept(ps, keep) == ps
  {
    if ps != [] {
      KeptWhole(ps[1..], keep[1..]);
    }
  }

  lemma {:induction false} KeptSmall(ps: seq<Package>, keep: seq<bool>)
    requires |keep| == |ps| && AllSmall(ps)
    ensures AllSmall(Kept(ps, keep))
  {
    if ps != [] {
      KeptSmall(ps[1..], keep[1..]);
      assert ps[0] in ps && forall p :: p in ps[1..] ==> p in ps;
    }
  }

  /** How many last packages there are: each of them calls the receive handler once. */
  function Lasts(ps: seq<Package>): nat {
    if ps == [] then 0 else Lasts(ps[..|ps| - 1]) + if IsLast(ps[|ps| - 1]) then 1 else 0
  }

  lemma {:induction false} OneCallEach(s: ReceiverState, ps: seq<Package>)
    requires Sane(s) && AllSmall(ps)
    ensures |ReceiveAll(s, ps).1| == Lasts(ps)
    decreases |ps|
  {
    if ps != [] {
      OneCallEach(s, ps[..|ps| - 1]);
      OneCall(ReceiveAll(s, ps[..|ps| - 1]).0, ps[|ps| - 1]);
      hide Receive, InBounds;
    }
  }

  lemma OneCall(s: ReceiverState, p: Package)
    requires Sane(s) && Small(p)
    ensures InBounds(s, p) && |Receive(s, p).1| == if IsLast(p) then 1 else 0
  {
    SmallIsSafe(s, p);
  }

  /** Until the next last package the receiver keeps the countdown of the first one. */
  lemma {:induction false} FirstCountdown(s: ReceiverState, ps: seq<Package>)
    requires Sane(s) && s.rxCntd == 0 && AllSmall(ps) && ps != []
    requires forall p :: p in ps ==> p.messageCnt != INVALID_MESSAGE_ID && p.packageCntd > 0
    ensures ReceiveAll(s, ps).0.rxCntd == ps[0].packageCntd
    decreases |ps|
  {
    var front, p := ps[..|ps| - 1], ps[|ps| - 1];
    assert p in ps;
    if front == [] {
      assert ReceiveAll(s, front) == (s, []);
    } else {
      assert ps[0] in ps && front[0] == ps[0];
      FirstCountdown(s, front);
    }
    SmallIsSafe(ReceiveAll(s, front).0, p);
    hide Splice, Offset, PackagesInMessage;
  }

  // Index of the first package of message k among all packages
  function Start(ms: seq<Message>, k: nat): nat
    requires k <= |ms|
  {
    |FragmentAll(ms[..k])|
  }

  lemma {:induction false} FragmentAllSplit(ms: seq<Message>, k: nat)
    requires k < |ms|
    ensures FragmentAll(ms) == FragmentAll(ms[..k]) + Fragment(ms[k]) + FragmentAll(ms[k + 1..])
    ensures Start(ms, k + 1) == Start(ms, k) + |Fragment(ms[k])| <= |FragmentAll(ms)|
    ensures FragmentAll(ms)[Start(ms, k)..Start(ms, k + 1)] == Fragment(ms[k])
  {
    assert ms[..k + 1] == ms[..k] + [ms[k]];
    FragmentAllAppend(ms[..k], ms[k]);
    hide Fragment;
    FragmentAllConcat(ms[..k + 1], ms[k + 1..]);
    assert ms == ms[..k + 1] + ms[k + 1..];
  }

  lemma {:induction false} FragmentAllConcat(ms: seq<Message>, ns: seq<Message>)
    ensures FragmentAll(ms + ns) == FragmentAll(ms) + FragmentAll(ns)
  {
    hide Fragment;
    if ms == [] {
      assert ms + ns == ns;
    } else {
      FragmentAllConcat(ms[1..], ns);
      RestOfConcat(ms, ns);
      Assoc(Fragment(ms[0]), FragmentAll(ms[1..]), FragmentAll(ns));
    }
  }

  lemma RestOfConcat(ms: seq<Message>, ns: seq<Message>)
    requires ms != []
    ensures (ms + ns)[1..] == ms[1..] + ns && (ms + ns)[0] == ms[0] && ms + ns != []
  {
  }

  lemma Assoc(a: seq<Package>, b: seq<Package>, c: seq<Package>)
    ensures a + (b + c) == a + b + c
  {
  }

  // The first packages of the messages
  predicate SentOf(sent: seq<Package>, ms: seq<Message>) {
    |sent| <= |FragmentAll(ms)| && sent == FragmentAll(ms)[..|sent|]
  }

  // Packages [from, to) all got through
  predicate Through(keep: seq<bool>, from: nat, to: nat) {
    to <= |keep| && forall j :: from <= j < to ==> keep[j]
  }

  lemma LastOfMessage(ms: seq<Message>, k: nat)
    requires WellFormed(ms) && k < |ms|
    ensures 0 < Start(ms, k + 1) <= |FragmentAll(ms)|
    ensures IsLast(FragmentAll(ms)[Start(ms, k + 1) - 1])
  {
    assert ms[k] in ms;
    FragmentAllSplit(ms, k);
    FragmentEnds(ms[k]);
    hide Fragment, FragmentAll, IsLast;
    var f, n, a, b := Fragment(ms[k]), |Fragment(ms[k])|, Start(ms, k), Start(ms, k + 1);
    assert FragmentAll(ms)[a..b][n - 1] == FragmentAll(ms)[b - 1];
  }

  lemma FragmentEnds(m: Message)
    requires m.id != INVALID_MESSAGE_ID && Sendable(m.bytes)
    ensures |Fragment(m)| > 0 && IsLast(Fragment(m)[|Fragment(m)| - 1])
  {
  }

  lemma {:induction false} AllFragmentsSmall(ms: seq<Message>)
    requires WellFormed(ms)
    ensures AllSmall(FragmentAll(ms))
  {
    if ms != [] {
      assert ms[0] in ms && forall m :: m in ms[1..] ==> m in ms;
      FragmentIsSmall(ms[0]);
      AllFragmentsSmall(ms[1..]);
      hide Fragment, Small;
    }
  }

  // What is kept up to and including a package that got through ends with it
  lemma KeptEnd(ps: seq<Package>, keep: seq<bool>, n: nat)
    requires |ps| == |keep| == n + 1 && keep[n]
    ensures Kept(ps, keep) == Kept(ps[..n], keep[..n]) + [ps[n]]
  {
    KeptSplit(ps, keep, n);
    KeptWhole([ps[n]], [true]);
    assert ps[n..] == [ps[n]] && keep[n..] == [true];
  }

  lemma BetweenAfterLast(ps: seq<Package>, keep: seq<bool>)
    requires |ps| == |keep| > 0 && AllSmall(ps) && IsLast(ps[|ps| - 1]) && keep[|ps| - 1]
    ensures AllSmall(Kept(ps, keep)) && ReceiveAll(Initial(), Kept(ps, keep)).0.rxCntd == 0
  {
    hide Kept, ReceiveAll, AllSmall, IsLast, Initial;
    InitialIsSane();
    var n := |ps| - 1;
    KeptEnd(ps, keep, n);
    SmallSlice(ps, 0, n);
    KeptSmall(ps[..n], keep[..n]);
    AfterLast(Initial(), Kept(ps[..n], keep[..n]), ps[n]);
  }

  lemma LastBefore(ms: seq<Message>, ps: seq<Package>, k: nat)
    requires WellFormed(ms) && 0 < k < |ms| && |ps| == Start(ms, k) && SentOf(ps, ms)
    ensures |ps| > 0 && IsLast(ps[|ps| - 1])
  {
    LastOfMessage(ms, k - 1);
    hide WellFormed, IsLast, FragmentAll, Start;
  }

  lemma NothingBefore(ms: seq<Message>)
    ensures Start(ms, 0) == 0
  {
  }

  // What arrives before message k leaves the receiver between messages
  lemma BetweenMessages(ms: seq<Message>, ps: seq<Package>, keep: seq<bool>, k: nat)
    requires WellFormed(ms) && k < |ms| && |ps| == |keep| == Start(ms, k)
    requires SentOf(ps, ms) && AllSmall(ps)
    requires k > 0 ==> |keep| > 0 && keep[|keep| - 1]
    ensures AllSmall(Kept(ps, keep)) && ReceiveAll(Initial(), Kept(ps, keep)).0.rxCntd == 0
  {
    hide AllSmall, IsLast, WellFormed, ReceiveAll, Initial, FragmentAll, Kept, Start, SentOf;
    if k > 0 {
      LastBefore(ms, ps, k);
      BetweenAfterLast(ps, keep);
    } else {
      NothingBefore(ms);
      NothingKept(ps, keep);
    }
  }

  lemma NothingKept(ps: seq<Package>, keep: seq<bool>)
    requires ps == [] && keep == []
    ensures AllSmall(Kept(ps, keep)) && ReceiveAll(Initial(), Kept(ps, keep)).0.rxCntd == 0
  {
  }

  // The part from a to b got through
  lemma KeptMiddle(ps: seq<Package>, keep: seq<bool>, a: nat, b: nat)
    requires |keep| == |ps| && a <= b && Through(keep, a, b)
    ensures Kept(ps, keep) == Kept(ps[..a], keep[..a]) + ps[a..b] + Kept(ps[b..], keep[b..])
  {
    KeptSplit(ps, keep, b);
    KeptSplit(ps[..b], keep[..b], a);
    assert ps[..b][..a] == ps[..a] && keep[..b][..a] == keep[..a];
    assert ps[..b][a..] == ps[a..b];
    KeptWhole(ps[a..b], keep[..b][a..]);
  }

  // A whole message between two parts of what arrives
  lemma DeliversBetween(before: seq<Package>, m: Message, after: seq<Package>)
    requires AllSmall(before) && AllSmall(after) && ReceiveAll(Initial(), before).0.rxCntd == 0
    requires m.id != INVALID_MESSAGE_ID && Sendable(m.bytes)
    ensures AllSmall(before + Fragment(m) + after)
    ensures var ds := ReceiveAll(Initial(), before + Fragment(m) + after).1;
            Lasts(before) < |ds| && Exact(ds[Lasts(before)], m)
  {
    hide Fragment, Small, Receive, Exact, Initial, Lasts;
    InitialIsSane();
    var s1 := ReceiveAll(Initial(), before).0;
    OneCallEach(Initial(), before);
    DeliversNext(s1, m);
    SmallTogether(before, Fragment(m));
    SmallTogether(before + Fragment(m), after);
    ReceiveAllAppend(Initial(), before + Fragment(m), after);
    ReceiveAllAppend(Initial(), before, Fragment(m));
  }

  // What arrives, before and after message k
  lemma LossyParts(ms: seq<Message>, sent: seq<Package>, keep: seq<bool>, k: nat)
      returns (before: seq<Package>, after: seq<Package>)
    requires WellFormed(ms) && k < |ms| && SentOf(sent, ms) && |keep| == |sent|
    requires Through(keep, Start(ms, k), Start(ms, k + 1))
    requires k > 0 ==> Start(ms, k) > 0 && Through(keep, Start(ms, k) - 1, Start(ms, k))
    ensures Start(ms, k) <= |sent| && before == Kept(sent[..Start(ms, k)], keep[..Start(ms, k)])
    ensures Kept(sent, keep) == before + Fragment(ms[k]) + after
    ensures AllSmall(before) && AllSmall(after) && AllSmall(Kept(sent, keep))
    ensures ReceiveAll(Initial(), before).0.rxCntd == 0
  {
    hide Fragment, FragmentAll, Kept, AllSmall, ReceiveAll, Start, Initial, WellFormed;
    var a, b := Start(ms, k), Start(ms, k + 1);
    FragmentAllSplit(ms, k);
    before, after := Kept(sent[..a], keep[..a]), Kept(sent[b..], keep[b..]);
    Middle(FragmentAll(ms), sent, a, b);
    KeptMiddle(sent, keep, a, b);
    SentIsSmall(ms, sent, keep, a, b);
    BetweenMessages(ms, sent[..a], keep[..a], k);
  }

  /**
   Delivery under loss: of the packages sent so far, keep says which arrive. A message that
   arrives whole is delivered exactly, if it is the first or the last package of the message
   before it arrived too; its place among the deliveries is the number of last packages that
   arrived before it. Fillers may come anywhere.
   */
  lemma LossyDelivery(ms: seq<Message>, sent: seq<Package>, keep: seq<bool>, arrived: seq<Package>, k: nat)
    requires WellFormed(ms) && k < |ms| && SentOf(sent, ms)
    requires |keep| == |sent| && NonFiller(arrived) == Kept(sent, keep)
    requires Through(keep, Start(ms, k), Start(ms, k + 1))
    requires k > 0 ==> Start(ms, k) > 0 && Through(keep, Start(ms, k) - 1, Start(ms, k))
    ensures AllSmall(arrived) && Start(ms, k) <= |sent|
    ensures var (place, ds) := (Lasts(Kept(sent[..Start(ms, k)], keep[..Start(ms, k)])),
                                ReceiveAll(Initial(), arrived).1);
            place < |ds| && Exact(ds[place], ms[k])
  {
    hide Fragment, FragmentAll, Kept, Exact, ReceiveAll, Start, Initial, Lasts, NonFiller, Through, Sane,
         AllSmall;
    var before, after := LossyParts(ms, sent, keep, k);
    assert ms[k] in ms;
    SmallIffNonFiller(arrived);
    InitialIsSane();
    FillersIgnored(Initial(), arrived);
    DeliversBetween(before, ms[k], after);
  }

  lemma InitialIsSane()
    ensures Sane(Initial()) && Initial().rxCntd == 0
  {
  }

  lemma Middle(all: seq<Package>, sent: seq<Package>, a: nat, b: nat)
    requires |sent| <= |all| && sent == all[..|sent|] && a <= b <= |sent|
    ensures sent[a..b] == all[a..b]
  {
  }

  lemma SentIsSmall(ms: seq<Message>, sent: seq<Package>, keep: seq<bool>, a: nat, b: nat)
    requires WellFormed(ms) && SentOf(sent, ms) && |keep| == |sent| && a <= b <= |sent|
    ensures AllSmall(sent[..a]) && AllSmall(Kept(sent, keep)) && AllSmall(Kept(sent[b..], keep[b..]))
  {
    AllFragmentsSmall(ms);
    hide FragmentAll, Kept, AllSmall, WellFormed;
    assert sent == FragmentAll(ms)[0..|sent|];
    SmallSlice(FragmentAll(ms), 0, |sent|);
    SmallSlice(sent, 0, a);
    SmallSlice(sent, b, |sent|);
    KeptSmall(sent, keep);
    KeptSmall(sent[b..], keep[b..]);
  }

  // ---------------------------------------------------------------- over runs

  /** The packages written in the first n steps of a run. */
  function Written(states: seq<Link>, events: seq<Event>, n: nat): seq<Package>
    requires Run(states, events) && n <= |events|
  {
    if n == 0 then []
    else
      assert Next(states[n - 1], events[n - 1], states[n]);
      Written(states, events, n - 1)
      + if events[n - 1] == WritePkg then [Write(states[n - 1].sender).1] else []
  }

  /** Conservation: what has been written and what is in the ring are all packages of all messages. */
  lemma {:induction false} WrittenAndQueued(states: seq<Link>, events: seq<Event>, n: nat)
    requires Run(states, events) && n < |states|
    ensures Ring(states[n].sender)
    ensures NonFiller(Written(states, events, n)) + Queue(states[n].sender) == FragmentAll(states[n].sent)
  {
    SenderRing(states, events, n);
    if n > 0 {
      SenderRing(states, events, n - 1);
      WrittenAndQueued(states, events, n - 1);
      assert Allowed(states[n - 1], events[n - 1]) && Next(states[n - 1], events[n - 1], states[n]);
      hide NonFiller, Queue, FragmentAll, Ring, Write, Next, Allowed, WellFormed;
      WrittenStep(states[n - 1], events[n - 1], states[n], Written(states, events, n - 1));
    } else {
      assert FragmentAll([]) == [];
    }
  }

  lemma SenderRing(states: seq<Link>, events: seq<Event>, n: nat)
    requires Run(states, events) && n < |states|
    ensures Ring(states[n].sender) && WellFormed(states[n].sent)
  {
    RunInv(states, events, n);
  }

  lemma WrittenStep(l: Link, e: Event, l': Link, written: seq<Package>)
    requires Ring(l.sender) && WellFormed(l.sent) && Allowed(l, e) && Next(l, e, l')
    requires NonFiller(written) + Queue(l.sender) == FragmentAll(l.sent)
    ensures Ring(l'.sender)
    ensures var more := if e == WritePkg then [Write(l.sender).1] else [];
            NonFiller(written + more) + Queue(l'.sender) == FragmentAll(l'.sent)
  {
    hide Queue, Fragment, FragmentAll, NonFiller, Enqueue, Write, Ring, Receive, InBounds;
    var q := Queue(l.sender);
    match e
    case EnqueueMsg(bytes, noWait) =>
      assert written + [] == written;
      if Accepts(l.sender, noWait) {
        EnqueueQueues(l.sender, bytes, noWait);
        FragmentAllAppend(l.sent, l'.sent[|l.sent|]);
      } else {
        NotEnqueued(l.sender, bytes, noWait);
      }
    case WritePkg =>
      WriteDequeues(l.sender);
      NonFillerAppend(written, Write(l.sender).1);
      if q != [] {
        FragmentsAreNotFillers(l.sent);
        assert q[0] in NonFiller(written) + q;
        assert NonFiller(written) + [q[0]] + q[1..] == NonFiller(written) + q;
      }
    case ReadPkg =>
      assert written + [] == written;
  }

  lemma {:induction false} FragmentsAreNotFillers(ms: seq<Message>)
    requires WellFormed(ms)
    ensures forall p :: p in FragmentAll(ms) ==> p.messageCnt != INVALID_MESSAGE_ID
  {
    if ms != [] {
      assert ms[0] in ms && forall m :: m in ms[1..] ==> m in ms;
      FragmentsAreNotFillers(ms[1..]);
    }
  }

  lemma NotEnqueued(s: SenderState, bytes: seq<uint8>, noWait: bool)
    requires Safe(s) && !Accepts(s, noWait)
    ensures Enqueue(s, bytes, noWait) == s
  {
  }

  /**
   The same over every run of the link: take all packages written up to any point, lose any of
   them; every message that arrives whole after an intact last package is delivered exactly.
   */
  lemma LossyRun(states: seq<Link>, events: seq<Event>, n: nat, keep: seq<bool>, arrived: seq<Package>, k: nat)
    requires Run(states, events) && n < |states| && k < |states[n].sent|
    requires var sent := NonFiller(Written(states, events, n));
             |keep| == |sent| && NonFiller(arrived) == Kept(sent, keep)
    requires var ms := states[n].sent;
             && Through(keep, Start(ms, k), Start(ms, k + 1))
             && (k > 0 ==> Start(ms, k) > 0 && Through(keep, Start(ms, k) - 1, Start(ms, k)))
    ensures AllSmall(arrived)
    ensures exists place :: 0 <= place < |ReceiveAll(Initial(), arrived).1|
                            && Exact(ReceiveAll(Initial(), arrived).1[place], states[n].sent[k])
  {
    RunInv(states, events, n);
    WrittenAndQueued(states, events, n);
    LossyDelivery(states[n].sent, NonFiller(Written(states, events, n)), keep, arrived, k);
  }
}
