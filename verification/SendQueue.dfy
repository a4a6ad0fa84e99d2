/** Bounded queues of whole messages that are written to a socket in pieces, with the exact accounts both
    servers keep of them. */
module SendQueue {
  import opened Framing

  const MAX_FRAMES: nat := 1024

  /** Frames submitted by business threads, those the I/O thread has taken over, and how much of the
      first of these the socket has taken; the counters cover both. */
  datatype Out = Out(pending: seq<Bytes>, queue: seq<Bytes>, offset: nat, bytes: nat, frames: nat)

  ghost predicate NoneEmpty(messages: seq<Bytes>) {
    forall m :: m in messages ==> m != []
  }

  ghost predicate Counted(o: Out) {
    && o.frames == |o.queue| + |o.pending| <= MAX_FRAMES
    && o.bytes == |Flat(o.queue)| + |Flat(o.pending)| <= MAX_PENDING
    && NoneEmpty(o.queue) && NoneEmpty(o.pending)
    && (if o.queue == [] then o.offset == 0 else o.offset < |o.queue[0]|)
  }

  /** What has been written and what has not been are together what was accepted. */
  ghost predicate Carries(o: Out, accepted: Bytes, wire: Bytes) {
    o.offset <= |Flat(o.queue)| && accepted == wire + Flat(o.queue)[o.offset..] + Flat(o.pending)
  }

  function Submitted(o: Out, m: Bytes): Out {
    o.(pending := o.pending + [m], bytes := o.bytes + |m|, frames := o.frames + 1)
  }

  function TakenOver(o: Out): Out {
    if o.queue == [] then o.(queue := o.pending, pending := []) else o
  }

  /** Or one message at a time is taken over. */
  function FetchedOne(o: Out): Out {
    if o.queue != [] || o.pending == [] then o
    else o.(queue := [o.pending[0]], pending := o.pending[1..], offset := 0)
  }

  /** The socket has taken `count` bytes of the first message. */
  function Written(o: Out, count: nat): Out
    requires Counted(o) && o.queue != [] && 0 < count <= |o.queue[0]| - o.offset
  {
    if o.offset + count < |o.queue[0]| then o.(offset := o.offset + count)
    else
      FirstFits(o.queue);
      o.(queue := o.queue[1..], offset := 0, bytes := o.bytes - |o.queue[0]|, frames := o.frames - 1)
  }

  function Piece(o: Out, count: nat): Bytes
    requires o.queue != [] && o.offset + count <= |o.queue[0]|
  {
    o.queue[0][o.offset..o.offset + count]
  }

  lemma FirstFits(messages: seq<Bytes>)
    ensures messages != [] ==> |messages[0]| <= |Flat(messages)|
  {
  }

  lemma SubmittedKeeps(o: Out, m: Bytes, accepted: Bytes, wire: Bytes)
    requires Counted(o) && Carries(o, accepted, wire)
    requires m != [] && |m| <= MAX_PENDING - o.bytes && o.frames < MAX_FRAMES
    ensures Counted(Submitted(o, m)) && Carries(Submitted(o, m), accepted + m, wire)
  {
    FlatAppend(o.pending, m);
    assert accepted + m == wire + Flat(o.queue)[o.offset..] + (Flat(o.pending) + m);
  }

  lemma TakenOverKeeps(o: Out, accepted: Bytes, wire: Bytes)
    requires Counted(o) && Carries(o, accepted, wire)
    ensures Counted(TakenOver(o)) && Carries(TakenOver(o), accepted, wire)
  {
    if o.queue == [] {
      assert o.pending != [] ==> o.pending[0] in o.pending;
      assert Flat(o.pending)[0..] == Flat(o.pending);
      assert accepted == wire + Flat(o.pending) + [];
    }
  }

  lemma FetchedOneKeeps(o: Out, accepted: Bytes, wire: Bytes)
    requires Counted(o) && Carries(o, accepted, wire)
    ensures Counted(FetchedOne(o)) && Carries(FetchedOne(o), accepted, wire)
  {
    var n := FetchedOne(o);
    if o.queue == [] && o.pending != [] {
      assert Flat(n.queue) == o.pending[0] + [] == o.pending[0];
      assert Flat(o.pending) == o.pending[0] + Flat(n.pending);
      assert o.pending[0] in o.pending && forall m :: m in n.pending ==> m in o.pending;
      assert Flat(o.queue)[o.offset..] == [] && Flat(n.queue)[0..] == o.pending[0];
      assert wire + [] + Flat(o.pending) == wire + o.pending[0] + Flat(n.pending);
    }
  }

  lemma WrittenKeeps(o: Out, count: nat, accepted: Bytes, wire: Bytes)
    requires Counted(o) && Carries(o, accepted, wire)
    requires o.queue != [] && 0 < count <= |o.queue[0]| - o.offset
    ensures Counted(Written(o, count)) && Carries(Written(o, count), accepted, wire + Piece(o, count))
  {
    var first, all := o.queue[0], Flat(o.queue);
    var sent := Piece(o, count);
    assert all == first + Flat(o.queue[1..]);
    assert all[o.offset..] == sent + all[o.offset + count..];
    assert accepted == (wire + sent) + all[o.offset + count..] + Flat(o.pending);
    if o.offset + count == |first| {
      assert all[o.offset + count..] == Flat(o.queue[1..]) == Flat(o.queue[1..])[0..];
      assert forall m :: m in o.queue[1..] ==> m in o.queue;
      assert |o.queue| > 1 ==> o.queue[1] in o.queue;
    }
  }

  lemma PrefixGrows(wire: Bytes, accepted: Bytes, m: Bytes)
    requires wire <= accepted
    ensures wire <= accepted + m
  {
  }

  lemma WireIsPrefix(o: Out, accepted: Bytes, wire: Bytes)
    requires Carries(o, accepted, wire)
    ensures wire <= accepted
  {
    assert accepted == wire + (Flat(o.queue)[o.offset..] + Flat(o.pending));
  }
}
