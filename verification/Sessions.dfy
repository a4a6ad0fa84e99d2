/**
 One client connection of the realtime server (Session.cpp): a bounded queue of whole frames that
 business threads fill and the I/O thread writes in pieces, and the buffer it reads frames from.
 */
module Sessions {
  import opened Framing
  import opened SendQueue

  const BUDGET: nat := 64 * 1024
  const HEARTBEAT: nat := 1048
  const HEARTBEAT_REPLY: nat := 1049

  /** What the payload of a heartbeat turns out to be; anything that must not be answered is `Unfit`. */
  datatype Beat = Unfit | Plain | Numbered(number: nat)

  /** One turn of the parsing loop: what remains to be parsed, with what has been taken out before it. */
  lemma ParseTurn(taken: seq<Frame>, s: Bytes)
    requires |s| >= HEADER
    ensures Refuses(Server, s) ==> Parse(Server, s) == Parsed([], s, true)
    ensures !Refuses(Server, s) && !Complete(Server, s) ==> Parse(Server, s) == Parsed([], s, false)
    ensures !Refuses(Server, s) && Complete(Server, s) ==>
      var later := Parse(Server, Beyond(Server, s));
      && Parse(Server, s) == later.(frames := [First(Server, s)] + later.frames)
      && taken + Parse(Server, s).frames == (taken + [First(Server, s)]) + later.frames
      && Business(taken + [First(Server, s)])
         == Business(taken) + if First(Server, s).id == HEARTBEAT then [] else [First(Server, s)]
  {
    hide Id, Length, Refuses;
    if !Refuses(Server, s) && Complete(Server, s) {
      assert (taken + [First(Server, s)])[..|taken|] == taken;
    }
  }

  lemma ParseTurnStart(s: Bytes)
    ensures Parse(Server, s) == Parse(Server, s).(frames := [] + Parse(Server, s).frames)
    ensures Business([]) == []
  {
    assert [] + Parse(Server, s).frames == Parse(Server, s).frames;
  }

  lemma ParseShort(s: Bytes)
    requires |s| < HEADER
    ensures Parse(Server, s) == Parsed([], s, false)
  {
  }

  /** What has been accepted in the meantime are replies to heartbeats, and no more than `most`. */
  ghost predicate Replies(before: seq<Frame>, after: seq<Frame>, most: int) {
    && before <= after && |after| - |before| <= most
    && forall i :: |before| <= i < |after| ==> after[i].id == HEARTBEAT_REPLY
  }

  lemma NoReply(frames: seq<Frame>)
    ensures Replies(frames, frames, 0)
  {
  }

  lemma OneReply(start: seq<Frame>, before: seq<Frame>, after: seq<Frame>, most: int)
    requires Replies(start, before, most)
    requires after == before || (|after| == |before| + 1 && before <= after && after[|before|].id == HEARTBEAT_REPLY)
    ensures Replies(start, after, most + 1)
  {
  }

  // ---- The connection ----

  class Session {
    var pending: seq<Bytes>
    var pendingBytes: nat
    var pendingFrames: nat
    var closed: bool
    var closeRequested: bool
    var sendQueue: seq<Bytes>
    var sendOffset: nat
    var receiveBuffer: Bytes
    /** Whether heartbeats have been numbered, and the highest number answered. */
    var sequenced: bool
    var heartbeatSequence: nat
    /** The frames that have entered the queue and the bytes the socket has taken, since the start. */
    ghost var accepted: seq<Frame>
    ghost var wire: Bytes
    /** The frames taken out of the stream, with the heartbeats among them. */
    ghost var received: seq<Frame>
    ghost var arrived: Bytes

    ghost function View(): Out
      reads this
    {
      Out(pending, sendQueue, sendOffset, pendingBytes, pendingFrames)
    }

    ghost predicate Valid()
      reads this
    {
      && AllSendable(Client, accepted) && wire <= EncodeAll(Client, accepted)
      && (!closed ==> Counted(View()) && Carries(View(), EncodeAll(Client, accepted), wire))
    }

    /** Until the connection is closed, everything that has arrived has been taken apart. */
    ghost predicate Reads()
      reads this
    {
      !IsClosed() ==> Parse(Server, arrived) == Parsed(received, receiveBuffer, false)
    }

    constructor ()
      ensures Valid() && !IsClosed() && accepted == [] && wire == []
      ensures Reads()
    {
      pending, pendingBytes, pendingFrames := [], 0, 0;
      closed, closeRequested := false, false;
      sendQueue, sendOffset, receiveBuffer := [], 0, [];
      sequenced, heartbeatSequence := false, 0;
      accepted, wire, received, arrived := [], [], [], [];
    }

    predicate IsClosed()
      reads this
    {
      closed || closeRequested
    }

    method RequestClose()
      modifies this`closeRequested
      ensures closeRequested
    {
      closeRequested := true;
    }

    /** `awake` is what the wakeup queue answers: it takes no token once the server is stopping. A frame
        that does not fit closes the connection instead of being dropped silently. */
    method Send(id: nat, payload: Bytes, awake: bool) returns (sent: bool)
      requires Valid() && id <= 0xFFFF
      modifies this`pending, this`pendingBytes, this`pendingFrames, this`closeRequested, this`accepted
      ensures Valid() && (old(closeRequested) ==> closeRequested)
      ensures sent ==> awake && !closeRequested && accepted == old(accepted) + [Frame(id, payload)]
      ensures !sent ==> accepted == old(accepted) || (!awake && accepted == old(accepted) + [Frame(id, payload)])
      ensures sent == (|payload| <= 0xFFFF && !old(IsClosed()) && awake &&
        HEADER + |payload| <= MAX_PENDING - old(pendingBytes) && old(pendingFrames) < MAX_FRAMES)
      ensures !sent && |payload| <= 0xFFFF ==> IsClosed()
      ensures old(accepted) <= accepted
    {
      if |payload| > 0xFFFF {
        return false;
      }
      var message := Encode(Client, Frame(id, payload));
      hide Carries, Encode, EncodeAll, Flat, NoneEmpty;
      if closed || closeRequested {
        return false;
      }
      if |message| > MAX_PENDING - pendingBytes || pendingFrames >= MAX_FRAMES {
        closeRequested := true;
        return false;
      }
      SubmittedKeeps(View(), message, EncodeAll(Client, accepted), wire);
      EncodeAllAppend(Client, accepted, Frame(id, payload));
      PrefixGrows(wire, EncodeAll(Client, accepted), message);
      pendingBytes := pendingBytes + |message|;
      pendingFrames := pendingFrames + 1;
      pending := pending + [message];
      accepted := accepted + [Frame(id, payload)];
      if !awake {
        closeRequested := true;
        return false;
      }
      return true;
    }

    /** Business threads submit frames and request closing while the I/O thread holds no lock. */
    method Others()
      requires Valid()
      modifies this`pending, this`pendingBytes, this`pendingFrames, this`closeRequested, this`accepted
      ensures Valid() && old(accepted) <= accepted && (old(closeRequested) ==> closeRequested)
    {
      var more: nat := *;
      while more > 0
        invariant Valid() && old(accepted) <= accepted && (old(closeRequested) ==> closeRequested)
      {
        var id: nat, payload: Bytes, awake: bool := *, *, *;
        if id <= 0xFFFF {
          var sent := Send(id, payload, awake);
        } else {
          closeRequested := true;
        }
        more := more - 1;
      }
    }

    method TakeOver() returns (alive: bool)
      requires Valid()
      modifies this`pending, this`sendQueue
      ensures Valid() && alive == !IsClosed()
      ensures View() == if alive then TakenOver(old(View())) else old(View())
    {
      if closed || closeRequested {
        return false;
      }
      TakenOverKeeps(View(), EncodeAll(Client, accepted), wire);
      if sendQueue == [] {
        sendQueue, pending := pending, [];
      }
      return true;
    }

    /** After the socket has taken a piece; a message that is complete gives its place back. */
    method Account(count: nat)
      requires Valid() && !closed && sendQueue != [] && 0 < count <= |sendQueue[0]| - sendOffset
      modifies this`sendQueue, this`sendOffset, this`pendingBytes, this`pendingFrames, this`wire
      ensures Valid() && View() == Written(old(View()), count)
      ensures wire == old(wire) + Piece(old(View()), count)
    {
      WrittenKeeps(View(), count, EncodeAll(Client, accepted), wire);
      FirstFits(sendQueue);
      WireIsPrefix(Written(View(), count), EncodeAll(Client, accepted), wire + Piece(View(), count));
      hide Carries, EncodeAll, Flat, Piece, NoneEmpty, AllSendable;
      wire := wire + Piece(View(), count);
      sendOffset := sendOffset + count;
      if sendOffset == |sendQueue[0]| {
        pendingBytes := pendingBytes - |sendQueue[0]|;
        pendingFrames := pendingFrames - 1;
        sendQueue := sendQueue[1..];
        sendOffset := 0;
      }
      assert View() == Written(old(View()), count);
      hide Counted, Written;
    }

    /** One attempt to write, after whatever others have done; the socket takes a piece or nothing. */
    method WriteOnce(limit: nat) returns (count: nat)
      requires Valid() && !closed && sendQueue != [] && limit > 0
      modifies this
      ensures Valid() && closed == old(closed) && count <= limit
      ensures old(accepted) <= accepted && old(wire) <= wire && |wire| == |old(wire)| + count
      ensures receiveBuffer == old(receiveBuffer) && received == old(received)
    {
      Others();
      var room := |sendQueue[0]| - sendOffset;
      var taken: int := *;
      if 0 < taken <= room && taken <= limit {
        Account(taken);
        return taken;
      }
      return 0;
    }

    /** Writes at most the budget, stops when the socket takes no more or fails (the calls interrupted
        by a signal are repeated and not modelled), and never touches what others submit meanwhile. */
    method HandleWrite() returns (alive: bool)
      requires Valid()
      modifies this
      ensures Valid() && closed == old(closed)
      ensures old(wire) <= wire <= EncodeAll(Client, accepted) && |wire| <= |old(wire)| + BUDGET
      ensures old(accepted) <= accepted
      ensures old(IsClosed()) ==> !alive && wire == old(wire)
      ensures receiveBuffer == old(receiveBuffer) && received == old(received)
    {
      alive := TakeOver();
      if !alive {
        return;
      }
      var written := 0;
      while sendQueue != [] && written < BUDGET
        invariant Valid() && closed == old(closed) && written <= BUDGET
        invariant old(wire) <= wire && |wire| == |old(wire)| + written
        invariant old(accepted) <= accepted
        invariant receiveBuffer == old(receiveBuffer) && received == old(received)
        decreases BUDGET - written
      {
        hide Counted, Carries, EncodeAll;
        var count := WriteOnce(BUDGET - written);
        if count == 0 {
          var wouldBlock: bool := *;
          return wouldBlock;
        }
        written := written + count;
      }
      return true;
    }

    method HasPendingWrite() returns (more: bool)
      requires Valid()
      ensures more == (closeRequested || pendingFrames != 0)
      ensures !closed && !more ==> wire == EncodeAll(Client, accepted)
    {
      more := closeRequested || pendingFrames != 0;
    }

    method Close()
      requires Valid()
      modifies this
      ensures Valid() && closed && View() == Out([], [], 0, 0, 0)
      ensures wire == old(wire) && accepted == old(accepted)
    {
      closed := true;
      pending, sendQueue := [], [];
      pendingBytes, pendingFrames, sendOffset := 0, 0, 0;
    }

    /** A heartbeat is answered through the same queue as everything else. Unless the connection is closed
        over it, a plain one is answered as long as none has been numbered, a numbered one if it is later
        than all before, and a repeated one is passed over. */
    method HandleHeartbeat(beat: Beat, reply: Bytes, awake: bool)
      requires Valid()
      modifies this`pending, this`pendingBytes, this`pendingFrames, this`closeRequested, this`accepted
      modifies this`sequenced, this`heartbeatSequence
      ensures Valid() && (old(closeRequested) ==> closeRequested)
      ensures heartbeatSequence >= old(heartbeatSequence) && (old(sequenced) ==> sequenced)
      ensures accepted == old(accepted) || accepted == old(accepted) + [Frame(HEARTBEAT_REPLY, reply)]
      ensures !IsClosed() ==> !beat.Unfit? && (beat.Plain? ==> !old(sequenced))
      ensures !IsClosed() && beat.Numbered? && beat.number > old(heartbeatSequence) ==>
        sequenced && heartbeatSequence == beat.number
      ensures !IsClosed() ==>
        (accepted != old(accepted) <==> beat.Plain? || beat.number > old(heartbeatSequence))
    {
      if beat.Unfit? || (beat.Plain? && sequenced) {
        RequestClose();
        return;
      }
      if beat.Numbered? {
        if beat.number <= heartbeatSequence {
          return;
        }
        sequenced := true;
        heartbeatSequence := beat.number;
      }
      var sent := Send(HEARTBEAT_REPLY, reply, awake);
      if !sent {
        RequestClose();
      }
    }

    /** Takes all complete frames out of the buffer. A heartbeat is answered at once, which may close the
        connection and end the parsing; every other frame goes to the business threads, in order. */
    method ParseFrames() returns (business: seq<Frame>)
      requires Valid()
      modifies this`receiveBuffer, this`closeRequested, this`received
      modifies this`pending, this`pendingBytes, this`pendingFrames, this`accepted
      modifies this`sequenced, this`heartbeatSequence
      ensures Valid()
      ensures old(received) <= received && business == Business(received[|old(received)|..])
      ensures received <= old(received) + Parse(Server, old(receiveBuffer)).frames
      ensures !IsClosed() ==>
        Parse(Server, old(receiveBuffer)) == Parsed(received[|old(received)|..], receiveBuffer, false)
      ensures Replies(old(accepted), accepted, |received| - |old(received)| - |business|)
    {
      hide Parse, Complete, First, Beyond, Refuses, Business, EncodeAll, Carries, Counted, AllSendable, Replies;
      business := [];
      ghost var taken: seq<Frame> := [];
      NoReply(accepted);
      ParseTurnStart(receiveBuffer);
      while |receiveBuffer| >= HEADER
        invariant Valid() && Replies(old(accepted), accepted, |taken| - |business|)
        invariant received == old(received) + taken && business == Business(taken)
        invariant Parse(Server, old(receiveBuffer))
               == Parse(Server, receiveBuffer).(frames := taken + Parse(Server, receiveBuffer).frames)
        invariant old(closeRequested) ==> closeRequested
        decreases |receiveBuffer|
      {
        ParseTurn(taken, receiveBuffer);
        assert received[|old(received)|..] == taken;
        if Refuses(Server, receiveBuffer) {
          closeRequested := true;
          return;
        }
        if !Complete(Server, receiveBuffer) {
          return;
        }
        var f := First(Server, receiveBuffer);
        receiveBuffer := Beyond(Server, receiveBuffer);
        received := received + [f];
        taken := taken + [f];
        assert received[|old(received)|..] == taken;
        if f.id == HEARTBEAT {
          var beat: Beat, reply: Bytes, awake: bool := *, *, *;
          ghost var before := accepted;
          HandleHeartbeat(beat, reply, awake);
          OneReply(old(accepted), before, accepted, |taken| - 1 - |business|);
          if closed || closeRequested {
            return;
          }
        } else {
          business := business + [f];
        }
      }
      ParseShort(receiveBuffer);
      assert received[|old(received)|..] == taken;
    }

    /** A chunk of the stream arrives. */
    method HandleRead(data: Bytes) returns (business: seq<Frame>)
      requires Valid() && Reads() && !IsClosed()
      modifies this`receiveBuffer, this`closeRequested, this`received, this`arrived
      modifies this`pending, this`pendingBytes, this`pendingFrames, this`accepted
      modifies this`sequenced, this`heartbeatSequence
      ensures Valid() && Reads() && arrived == old(arrived) + data
      ensures old(received) <= received && business == Business(received[|old(received)|..])
    {
      hide Parse, Business, EncodeAll, Carries, Counted;
      ParseResumes(Server, arrived, data);
      arrived := arrived + data;
      receiveBuffer := receiveBuffer + data;
      business := ParseFrames();
      assert received == old(received) + received[|old(received)|..];
    }
  }

  /** What the client makes of the bytes of a connection, in whatever chunks they arrive, is a prefix of
      the accepted frames; it is all of them once everything has been written. */
  lemma ClientReads(accepted: seq<Frame>, wire: Bytes, chunks: seq<Bytes>)
    requires AllSendable(Client, accepted) && wire <= EncodeAll(Client, accepted) && Concat(chunks) == wire
    ensures var p := ReadChunks(Client, [], chunks);
      !p.refused && p.frames <= accepted && (wire == EncodeAll(Client, accepted) ==> p.frames == accepted)
  {
    hide Parse, EncodeAll, Sendable;
    assert [] + Concat(chunks) == wire;
    PrefixReads(Client, accepted, wire);
    ChunkingIsInvisible(Client, [], chunks);
    if wire == EncodeAll(Client, accepted) {
      RoundTrip(Client, accepted, chunks);
    }
  }

  /** Without the heartbeats, which never reach the business threads. */
  function Business(frames: seq<Frame>): seq<Frame> {
    if frames == [] then [] else
      Business(frames[..|frames| - 1]) +
      if frames[|frames| - 1].id == HEARTBEAT then [] else [frames[|frames| - 1]]
  }

  /** Each frame in its place, whatever comes before and after it: a heartbeat gets no further, any other is passed
      on once. */
  lemma {:induction false} PassedOnInPlace(before: seq<Frame>, f: Frame, after: seq<Frame>)
    ensures Business(before + [f] + after) ==
      Business(before) + (if f.id == HEARTBEAT then [] else [f]) + Business(after)
    decreases |after|
  {
    var all := before + [f] + after;
    if after == [] {
      assert all[..|all| - 1] == before;
      assert Business(after) == [];
    } else {
      var init, last := after[..|after| - 1], after[|after| - 1];
      assert all[..|all| - 1] == before + [f] + init && all[|all| - 1] == last;
      PassedOnInPlace(before, f, init);
    }
  }
}
