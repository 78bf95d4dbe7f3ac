/** What a byte-at-a-time parser has been given. */
module ByteStreams {
  import opened CInts

  /** A byte arrives, or the application has handled the pending message. */
  datatype Event = ByteIn(c: uint8) | Handled

  function History(es: seq<Event>): seq<uint8> {
    if es == [] then []
    else
      History(es[..|es| - 1]) + match es[|es| - 1] case ByteIn(c) => [c] case Handled => []
  }

  predicate EndsWith(h: seq<uint8>, t: seq<uint8>) {
    |t| <= |h| && h[|h| - |t|..] == t
  }

  lemma EndsWithMore(h: seq<uint8>, t: seq<uint8>, c: uint8)
    ensures EndsWith(h, t) ==> EndsWith(h + [c], t + [c])
  {
    if EndsWith(h, t) {
      assert (h + [c])[|h| - |t|..] == h[|h| - |t|..] + [c];
    }
  }

  lemma EndsWithNothing(h: seq<uint8>)
    ensures EndsWith(h, [])
  {
    assert h[|h|..] == [];
  }
}
