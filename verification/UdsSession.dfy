/**
 The media server's end of the connection to the realtime server (the media server's Session.cpp): any
 thread sends, one thread writes whole frames in order, one reads, and anyone may stop it.
 */
module UdsSession {
  import opened Framing
  import opened SendQueue

  /** Reading payloads until the input ends; the reader takes what a header promises, however much that is. */
  function Payloads(incoming: Bytes): seq<Bytes>
    decreases |incoming|
  {
    if !Complete(Media, incoming) then []
    else [First(Media, incoming).payload] + Payloads(Beyond(Media, incoming))
  }

  lemma {:induction false} PayloadsOfParsed(incoming: Bytes)
    requires !Parse(Media, incoming).refused
    ensures |Payloads(incoming)| == |Parse(Media, incoming).frames|
    ensures forall i :: 0 <= i < |Payloads(incoming)| ==>
      Payloads(incoming)[i] == Parse(Media, incoming).frames[i].payload
    decreases |incoming|
  {
    hide Complete, First, Beyond, Parse;
    ParseStep(Media, incoming);
    if Complete(Media, incoming) {
      PayloadsOfParsed(Beyond(Media, incoming));
    }
  }

  /** Although it checks no length, this end reads exactly what the other end sent. */
  lemma {:induction false} ReadsWhatWasSent(frames: seq<Frame>)
    requires AllSendable(Media, frames)
    ensures var read := Payloads(EncodeAll(Media, frames));
      |read| == |frames| && forall i :: 0 <= i < |read| ==> read[i] == frames[i].payload
  {
    hide Parse, Encode, EncodeAll, Sendable;
    var s := EncodeAll(Media, frames);
    assert s + [] == s;
    ParseAll(Media, frames, []);
    ParseNothing(Media);
    assert frames + [] == frames;
    PayloadsOfParsed(s);
  }

  class Session {
    var stopping: bool
    var sendQueue: seq<Bytes>
    var pendingBytes: nat
    var pendingFrames: nat
    var meetingIds: set<nat>
    /** Local to the sending thread: the frame it is writing and how far it has got. */
    var frame: Bytes
    var sent: nat
    ghost var accepted: seq<Frame>
    ghost var wire: Bytes

    ghost function View(): Out
      reads this
    {
      if frame == [] then Out(sendQueue, [], 0, pendingBytes, pendingFrames)
      else Out(sendQueue, [frame], sent, pendingBytes, pendingFrames)
    }

    /** The rest of a frame that has been begun is the next to be written, stopped or not. */
    ghost predicate Valid()
      reads this
    {
      && AllSendable(Media, accepted) && sent <= |frame|
      && wire + frame[sent..] <= EncodeAll(Media, accepted)
      && (!stopping ==> Counted(View()) && Carries(View(), EncodeAll(Media, accepted), wire))
    }

    constructor ()
      ensures Valid() && !stopping && accepted == [] && wire == [] && meetingIds == {}
    {
      stopping, sendQueue, pendingBytes, pendingFrames, meetingIds := false, [], 0, 0, {};
      frame, sent := [], 0;
      accepted, wire := [], [];
    }

    method RememberRoom(id: nat)
      modifies this`meetingIds
      ensures meetingIds == old(meetingIds) + {id}
    {
      meetingIds := meetingIds + {id};
    }

    /** A frame that does not fit stops the connection. */
    method Send(payload: Bytes) returns (taken: bool)
      requires Valid()
      modifies this`stopping, this`sendQueue, this`pendingBytes, this`pendingFrames, this`accepted
      ensures Valid() && (old(stopping) ==> stopping)
      ensures taken == (!old(stopping) &&
        HEADER + |payload| <= MAX_PENDING - old(pendingBytes) && old(pendingFrames) < MAX_FRAMES)
      ensures taken ==> !stopping && accepted == old(accepted) + [Frame(0, payload)]
      ensures !taken ==> stopping && accepted == old(accepted)
    {
      if stopping {
        return false;
      }
      if |payload| > MAX_PENDING - HEADER || |payload| + HEADER > MAX_PENDING - pendingBytes
        || pendingFrames >= MAX_FRAMES {
        Stop();
        return false;
      }
      Enqueue(payload);
      return true;
    }

    method Enqueue(payload: Bytes)
      requires Valid() && !stopping && pendingFrames < MAX_FRAMES
      requires |payload| <= MAX_PENDING - HEADER && |payload| + HEADER <= MAX_PENDING - pendingBytes
      modifies this`sendQueue, this`pendingBytes, this`pendingFrames, this`accepted
      ensures Valid() && accepted == old(accepted) + [Frame(0, payload)]
    {
      var message := Encode(Media, Frame(0, payload));
      hide Encode, EncodeAll, Carries, Counted, Flat;
      SubmittedKeeps(View(), message, EncodeAll(Media, accepted), wire);
      EncodeAllAppend(Media, accepted, Frame(0, payload));
      PrefixGrows(wire + frame[sent..], EncodeAll(Media, accepted), message);
      ghost var next := Submitted(View(), message);
      sendQueue := sendQueue + [message];
      pendingBytes := pendingBytes + |message|;
      pendingFrames := pendingFrames + 1;
      accepted := accepted + [Frame(0, payload)];
      assert View() == next;
    }

    method Stop()
      requires Valid()
      modifies this`stopping, this`sendQueue, this`pendingBytes, this`pendingFrames
      ensures Valid() && stopping
      ensures !old(stopping) ==> sendQueue == [] && pendingBytes == 0 && pendingFrames == 0
    {
      if stopping {
        return;
      }
      stopping := true;
      sendQueue, pendingBytes, pendingFrames := [], 0, 0;
    }

    /** Other threads send and stop while this one writes. */
    method Others()
      requires Valid()
      modifies this`stopping, this`sendQueue, this`pendingBytes, this`pendingFrames, this`accepted
      ensures Valid() && (old(stopping) ==> stopping)
    {
      var more: nat := *;
      while more > 0
        invariant Valid() && (old(stopping) ==> stopping)
      {
        var stops: bool, payload: Bytes := *, *;
        if stops {
          Stop();
        } else {
          var taken := Send(payload);
        }
        more := more - 1;
      }
    }

    /** The sending thread's next frame. */
    method Fetch()
      requires Valid() && !stopping && frame == [] && sendQueue != []
      modifies this`sendQueue, this`frame, this`sent
      ensures Valid() && frame != [] && sent == 0
    {
      FetchedOneKeeps(View(), EncodeAll(Media, accepted), wire);
      assert Counted(View()) && sendQueue[0] in sendQueue;
      RestIsNext(FetchedOne(View()));
      hide Carries, Counted, Flat, EncodeAll;
      ghost var next := FetchedOne(View());
      frame, sent, sendQueue := sendQueue[0], 0, sendQueue[1..];
      assert View() == next;
    }

    lemma RestIsNext(o: Out)
      requires AllSendable(Media, accepted)
      requires Counted(o) && |o.queue| == 1 && Carries(o, EncodeAll(Media, accepted), wire)
      ensures wire + o.queue[0][o.offset..] <= EncodeAll(Media, accepted)
    {
      assert Flat(o.queue) == o.queue[0] + [];
      assert EncodeAll(Media, accepted) == (wire + o.queue[0][o.offset..]) + Flat(o.pending);
    }

    /** The socket takes a piece; the place of a complete frame is given back unless the connection has been
        stopped, which has emptied the accounts. */
    method WritePiece(count: nat)
      requires Valid() && frame != [] && sent < |frame| && 0 < count <= |frame| - sent
      modifies this`frame, this`sent, this`wire, this`pendingBytes, this`pendingFrames
      ensures Valid() && old(wire) <= wire && stopping == old(stopping)
      ensures old(sent) + count < |old(frame)| ==> frame == old(frame) && sent == old(sent) + count
      ensures old(sent) + count == |old(frame)| ==> frame == []
    {
      if stopping {
        StoppedPiece(count);
        hide EncodeAll;
        wire := wire + frame[sent..sent + count];
        sent := sent + count;
        if sent == |frame| {
          frame, sent := [], 0;
        }
      } else {
        AccountPiece(count);
      }
    }

    lemma StoppedPiece(count: nat)
      requires Valid() && count <= |frame| - sent
      ensures (wire + frame[sent..sent + count]) + frame[sent + count..] <= EncodeAll(Media, accepted)
    {
      assert (wire + frame[sent..sent + count]) + frame[sent + count..] == wire + frame[sent..];
    }

    method AccountPiece(count: nat)
      requires Valid() && !stopping && frame != [] && sent < |frame| && 0 < count <= |frame| - sent
      modifies this`frame, this`sent, this`wire, this`pendingBytes, this`pendingFrames
      ensures Valid() && old(wire) <= wire
      ensures old(sent) + count < |old(frame)| ==> frame == old(frame) && sent == old(sent) + count
      ensures old(sent) + count == |old(frame)| ==> frame == []
    {
      ghost var next := Written(View(), count);
      ghost var more := wire + Piece(View(), count);
      WrittenKeeps(View(), count, EncodeAll(Media, accepted), wire);
      StoppedPiece(count);
      FirstFits([frame]);
      assert Flat([frame]) == frame + [];
      hide Carries, EncodeAll, Flat, NoneEmpty;
      wire := more;
      sent := sent + count;
      if sent == |frame| {
        pendingBytes := pendingBytes - |frame|;
        pendingFrames := pendingFrames - 1;
        frame, sent := [], 0;
      }
      assert View() == next;
    }

    /** One turn of the sending thread: a whole frame is written before the next is fetched. */
    method SendFrame()
      requires Valid() && !stopping && frame == [] && sendQueue != []
      modifies this
      ensures Valid() && old(wire) <= wire
      ensures stopping || frame == []
    {
      Fetch();
      while frame != []
        invariant Valid() && old(wire) <= wire
        invariant frame != [] ==> sent < |frame|
        decreases |frame| - sent + if frame == [] then 0 else 1
      {
        hide Carries, EncodeAll, Flat, Counted;
        Others();
        var count: int := *;
        if count <= 0 || count > |frame| - sent {
          Stop();
          return;
        }
        WritePiece(count);
      }
    }
  }
}
