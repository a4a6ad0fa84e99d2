/**
 The realtime server's connection to the media server (MediaSignalClient.cpp): it is lost and made
 again, every time under a new epoch, while business threads send under the epoch they know.
 */
module MediaClient {
  import opened Framing
  import opened SendQueue

  const FIRST_RETRY: nat := 1000
  const LAST_RETRY: nat := 10000
  const BUDGET: nat := 64 * 1024

  datatype Callback =
    | Connected(epoch: nat)
    | Message(epoch: nat, payload: Bytes)
    | Disconnected(epoch: nat)

  /** Blocks of Connected(e), Message(e) any number of times, Disconnected(e), for ever larger e; the last
      block may still be open. */
  ghost predicate InBlocks(trace: seq<Callback>) {
    forall i :: 0 <= i < |trace| ==> Fits(trace[..i], trace[i])
  }

  ghost predicate Fits(before: seq<Callback>, c: Callback) {
    && c.epoch > 0
    && if c.Connected? then OpenBlock(before) == 0 && NewerThanAll(before, c.epoch) else OpenBlock(before) == c.epoch
  }

  /** The epoch of the block that is open at the end of the trace, 0 if there is none. */
  function OpenBlock(trace: seq<Callback>): nat {
    if trace == [] || trace[|trace| - 1].Disconnected? then 0 else trace[|trace| - 1].epoch
  }

  ghost predicate NewerThanAll(trace: seq<Callback>, epoch: nat) {
    forall i :: 0 <= i < |trace| ==> trace[i].epoch < epoch
  }

  lemma CallbackKeepsBlocks(trace: seq<Callback>, c: Callback)
    requires InBlocks(trace) && Fits(trace, c)
    ensures InBlocks(trace + [c])
  {
    var longer := trace + [c];
    forall i | 0 <= i < |longer| ensures Fits(longer[..i], longer[i]) {
      if i < |trace| {
        assert longer[..i] == trace[..i] && longer[i] == trace[i];
        assert Fits(trace[..i], trace[i]);
      } else {
        assert longer[..i] == trace;
      }
    }
  }

  /** Every message and every end belongs to a connection: it follows the beginning under its epoch with
      nothing but messages of that epoch between them. */
  lemma {:induction false} InItsBlock(trace: seq<Callback>, j: nat) returns (k: nat)
    requires InBlocks(trace) && j < |trace| && !trace[j].Connected?
    ensures k < j && trace[k] == Connected(trace[j].epoch)
    ensures forall i :: k < i < j ==> trace[i].Message? && trace[i].epoch == trace[j].epoch
  {
    assert Fits(trace[..j], trace[j]);
    if trace[j - 1].Connected? {
      k := j - 1;
    } else {
      k := InItsBlock(trace, j - 1);
    }
  }

  lemma EpochsRise(trace: seq<Callback>, i: nat, j: nat)
    requires InBlocks(trace) && i < j < |trace| && trace[j].Connected?
    ensures trace[i].epoch < trace[j].epoch
  {
    assert Fits(trace[..j], trace[j]);
    assert trace[..j][i] == trace[i];
  }

  function Messages(epoch: nat, frames: seq<Frame>): (trace: seq<Callback>)
    ensures |trace| == |frames|
    ensures forall i :: 0 <= i < |trace| ==> trace[i] == Message(epoch, frames[i].payload)
  {
    seq(|frames|, i requires 0 <= i < |frames| => Message(epoch, frames[i].payload))
  }

  /** What was accepted for sending under an epoch that is over, and what its socket took of it. */
  datatype Past = Past(epoch: nat, accepted: seq<Frame>, wire: Bytes)

  ghost predicate PastSound(p: Past) {
    AllSendable(Media, p.accepted) && p.wire <= EncodeAll(Media, p.accepted)
  }

  // ---- Epochs and callbacks ----

  datatype Line = Line(
    started: bool, connected: bool, epoch: nat, active: nat, open: bool, connecting: bool, trace: seq<Callback>)

  ghost predicate LineOk(l: Line) {
    && InBlocks(l.trace) && OpenBlock(l.trace) == l.active && NewerThanAll(l.trace, l.epoch + 1)
    && (l.active != 0 ==> l.active == l.epoch && l.open && !l.connecting)
    && (l.connected ==> l.started && l.active != 0)
  }

  function LineUp(l: Line): Line {
    l.(connected := true, epoch := l.epoch + 1, active := l.epoch + 1, connecting := false,
       trace := l.trace + [Connected(l.epoch + 1)])
  }

  function LineDown(l: Line): Line {
    l.(connected := false, active := 0, open := false, connecting := false,
       trace := if l.active == 0 then l.trace else l.trace + [Disconnected(l.active)])
  }

  function LineMessages(l: Line, frames: seq<Frame>): Line {
    l.(trace := l.trace + Messages(l.active, frames))
  }

  lemma UpKeepsLine(l: Line)
    requires LineOk(l) && l.started && l.open && l.active == 0
    ensures LineOk(LineUp(l))
  {
    var longer := l.trace + [Connected(l.epoch + 1)];
    CallbackKeepsBlocks(l.trace, Connected(l.epoch + 1));
    hide InBlocks;
    assert longer[|longer| - 1] == Connected(l.epoch + 1);
  }

  lemma DownKeepsLine(l: Line)
    requires LineOk(l)
    ensures LineOk(LineDown(l))
  {
    if l.active != 0 { CallbackKeepsBlocks(l.trace, Disconnected(l.active)); }
    hide InBlocks;
  }

  lemma MessageKeepsLine(l: Line, payload: Bytes)
    requires LineOk(l) && l.active != 0
    ensures LineOk(l.(trace := l.trace + [Message(l.active, payload)]))
  {
    CallbackKeepsBlocks(l.trace, Message(l.active, payload));
    hide InBlocks;
  }

  lemma MoreMessages(epoch: nat, frames: seq<Frame>, f: Frame)
    ensures Messages(epoch, frames + [f]) == Messages(epoch, frames) + [Message(epoch, f.payload)]
  {
  }

  lemma {:induction false} MessagesKeepLine(l: Line, frames: seq<Frame>)
    requires LineOk(l) && l.active != 0
    ensures LineOk(LineMessages(l, frames))
    decreases |frames|
  {
    hide LineOk;
    if frames == [] {
      assert l.trace + Messages(l.active, frames) == l.trace;
    } else {
      var init, f := frames[..|frames| - 1], frames[|frames| - 1];
      assert frames == init + [f];
      MessagesKeepLine(l, init);
      MoreMessages(l.active, init, f);
      hide Messages;
      MessageKeepsLine(LineMessages(l, init), f.payload);
      assert l.trace + Messages(l.active, frames)
        == (l.trace + Messages(l.active, init)) + [Message(l.active, f.payload)];
    }
  }

  // ---- The queue of an epoch ----

  datatype Traffic = Traffic(o: Out, accepted: seq<Frame>, wire: Bytes, past: seq<Past>)

  /** Everything in the queue was accepted under the epoch whose socket is open. */
  ghost predicate TrafficOk(t: Traffic, active: nat) {
    && AllSendable(Media, t.accepted) && Counted(t.o) && Carries(t.o, EncodeAll(Media, t.accepted), t.wire)
    && |t.o.queue| <= 1
    && (active == 0 ==> t == NoTraffic(t.past))
    && (forall p :: p in t.past ==> PastSound(p))
  }

  function NoTraffic(past: seq<Past>): Traffic {
    Traffic(Out([], [], 0, 0, 0), [], [], past)
  }

  function TrafficSubmitted(t: Traffic, message: Bytes): Traffic
    requires |message| <= MAX_PENDING - HEADER
  {
    t.(o := Submitted(t.o, Encode(Media, Frame(0, message))), accepted := t.accepted + [Frame(0, message)])
  }

  function TrafficDropped(t: Traffic, active: nat): Traffic {
    NoTraffic(if active == 0 then t.past else t.past + [Past(active, t.accepted, t.wire)])
  }

  /** One frame at a time is taken out of the queue, and written in pieces. */
  function Fetched(t: Traffic): Traffic {
    t.(o := FetchedOne(t.o))
  }

  function TrafficWritten(t: Traffic, count: nat): Traffic
    requires Counted(t.o) && t.o.queue != [] && 0 < count <= |t.o.queue[0]| - t.o.offset
  {
    t.(o := Written(t.o, count), wire := t.wire + Piece(t.o, count))
  }

  lemma NoTrafficOk(past: seq<Past>)
    requires forall p :: p in past ==> PastSound(p)
    ensures TrafficOk(NoTraffic(past), 0)
  {
  }

  lemma SubmitKeepsTraffic(t: Traffic, message: Bytes, active: nat)
    requires TrafficOk(t, active) && active != 0 && t.o.frames < MAX_FRAMES
    requires |message| <= MAX_PENDING - HEADER && |message| + HEADER <= MAX_PENDING - t.o.bytes
    ensures TrafficOk(TrafficSubmitted(t, message), active)
  {
    hide Counted, Carries, Encode, EncodeAll, PastSound;
    SubmittedKeeps(t.o, Encode(Media, Frame(0, message)), EncodeAll(Media, t.accepted), t.wire);
    EncodeAllAppend(Media, t.accepted, Frame(0, message));
  }

  lemma DropKeepsTraffic(t: Traffic, active: nat)
    requires TrafficOk(t, active)
    ensures TrafficOk(TrafficDropped(t, active), 0)
  {
    WireIsPrefix(t.o, EncodeAll(Media, t.accepted), t.wire);
    assert PastSound(Past(active, t.accepted, t.wire));
    NoTrafficOk(TrafficDropped(t, active).past);
  }

  lemma FetchKeepsTraffic(t: Traffic, active: nat)
    requires TrafficOk(t, active)
    ensures TrafficOk(Fetched(t), active)
  {
    FetchedOneKeeps(t.o, EncodeAll(Media, t.accepted), t.wire);
    hide PastSound, EncodeAll, Counted, Carries;
  }

  lemma WriteKeepsTraffic(t: Traffic, count: nat, active: nat)
    requires TrafficOk(t, active) && t.o.queue != [] && 0 < count <= |t.o.queue[0]| - t.o.offset
    ensures TrafficOk(TrafficWritten(t, count), active)
  {
    WrittenKeeps(t.o, count, EncodeAll(Media, t.accepted), t.wire);
    hide Counted, Carries, PastSound, EncodeAll;
  }

  // ---- Turns of the parsing loop ----

  lemma ParseFromStart(s: Bytes)
    ensures Parse(Media, s) == Parse(Media, s).(frames := [] + Parse(Media, s).frames)
  {
    assert [] + Parse(Media, s).frames == Parse(Media, s).frames;
  }

  lemma MediaTurn(taken: seq<Frame>, s: Bytes)
    ensures |s| < HEADER ==> !Complete(Media, s)
    ensures |s| >= HEADER && Refuses(Media, s) ==>
      Parse(Media, s) == Parsed([], s, true) && taken + Parse(Media, s).frames == taken
    ensures !(|s| >= HEADER && Refuses(Media, s)) && !Complete(Media, s) ==>
      Parse(Media, s) == Parsed([], s, false) && taken + Parse(Media, s).frames == taken
    ensures !(|s| >= HEADER && Refuses(Media, s)) && Complete(Media, s) ==>
      var later := Parse(Media, Beyond(Media, s));
      && Parse(Media, s) == later.(frames := [First(Media, s)] + later.frames)
      && taken + Parse(Media, s).frames == (taken + [First(Media, s)]) + later.frames
  {
    hide Id, Length, Refuses;
  }

  // ---- The client ----

  class MediaSignalClient {
    var started: bool
    var connected: bool
    var epoch: nat
    var frames: seq<Bytes>
    var pendingBytes: nat
    var pendingFrames: nat
    var open: bool              // there is a socket
    var connecting: bool
    var activeEpoch: nat
    var retryMs: nat
    var deadline: nat
    var received: Bytes
    var sending: Bytes
    var sent: nat
    /** The callbacks made, what was accepted and written under the current epoch, and under earlier ones. */
    ghost var trace: seq<Callback>
    ghost var accepted: seq<Frame>
    ghost var wire: Bytes
    ghost var past: seq<Past>

    ghost function LineView(): Line
      reads this
    {
      Line(started, connected, epoch, activeEpoch, open, connecting, trace)
    }

    ghost function TrafficView(): Traffic
      reads this
    {
      Traffic(if sending == [] then Out(frames, [], 0, pendingBytes, pendingFrames)
              else Out(frames, [sending], sent, pendingBytes, pendingFrames), accepted, wire, past)
    }

    ghost predicate Valid()
      reads this
    {
      && LineOk(LineView()) && TrafficOk(TrafficView(), activeEpoch)
      && (activeEpoch == 0 ==> received == [])
      && FIRST_RETRY <= retryMs <= LAST_RETRY
    }

    constructor ()
      ensures Valid() && !started && trace == [] && past == [] && accepted == []
    {
      started, connected, epoch := false, false, 0;
      frames, pendingBytes, pendingFrames := [], 0, 0;
      open, connecting, activeEpoch, retryMs, deadline := false, false, 0, FIRST_RETRY, 0;
      received, sending, sent := [], [], 0;
      trace, accepted, wire, past := [], [], [], [];
    }

    method Start(now: nat)
      requires Valid() && !started
      modifies this`started, this`retryMs, this`deadline
      ensures Valid() && started && deadline == now && retryMs == FIRST_RETRY
    {
      hide TrafficOk;
      started, retryMs, deadline := true, FIRST_RETRY, now;
    }

    method IsCurrent(e: nat) returns (current: bool)
      requires Valid()
      ensures current == (started && connected && epoch == e)
      ensures current ==> OpenBlock(trace) == e
    {
      current := started && connected && epoch == e;
    }

    /** For any thread: only a frame under the epoch of the open connection is accepted. One that does not
        fit gives the epoch up; `awake` is what the wakeup queue answers. */
    method Send(e: nat, message: Bytes, awake: bool) returns (ok: bool)
      requires Valid()
      modifies this`connected, this`frames, this`pendingBytes, this`pendingFrames, this`accepted
      ensures Valid()
      ensures ok == (old(connected) && e == epoch && awake &&
        HEADER + |message| <= MAX_PENDING - old(pendingBytes) && old(pendingFrames) < MAX_FRAMES)
      ensures ok ==> e == activeEpoch && connected && TrafficView() == TrafficSubmitted(old(TrafficView()), message)
      ensures !ok && awake ==> TrafficView() == old(TrafficView())
      ensures old(accepted) <= accepted
      ensures !ok && old(connected) && e == epoch ==> !connected
      ensures e != epoch ==> TrafficView() == old(TrafficView()) && connected == old(connected)
    {
      hide TrafficOk, InBlocks, NewerThanAll, Encode;
      if !started || !connected || e != epoch {
        return false;
      }
      if |message| > MAX_PENDING - HEADER || |message| + HEADER > MAX_PENDING - pendingBytes
        || pendingFrames >= MAX_FRAMES {
        connected := false;
        return false;
      }
      SubmitKeepsTraffic(TrafficView(), message, activeEpoch);
      var frame := Encode(Media, Frame(0, message));
      pendingBytes := pendingBytes + |frame|;
      pendingFrames := pendingFrames + 1;
      frames := frames + [frame];
      accepted := accepted + [Frame(0, message)];
      assert TrafficView() == TrafficSubmitted(old(TrafficView()), message);
      if !awake {
        connected := false;
        return false;
      }
      return true;
    }

    method Invalidate(e: nat)
      requires Valid()
      modifies this`connected
      ensures Valid() && connected == (old(connected) && e != epoch)
    {
      hide TrafficOk, InBlocks, NewerThanAll;
      if !started || e != epoch {
        return;
      }
      connected := false;
    }

    /** What business threads do between two locked sections of the loop: send and invalidate under whatever
        epochs they know. */
    method Others()
      requires Valid()
      modifies this`connected, this`frames, this`pendingBytes, this`pendingFrames, this`accepted
      ensures Valid() && old(accepted) <= accepted
    {
      hide TrafficOk, LineOk;
      var more: nat := *;
      while more > 0
        invariant Valid() && old(accepted) <= accepted
      {
        var sends: bool, e: nat, message: Bytes, awake: bool := *, *, *, *;
        if sends {
          var ok := Send(e, message, awake);
        } else {
          Invalidate(e);
        }
        more := more - 1;
      }
    }

    /** The socket has become usable. */
    method BecomeConnected()
      requires Valid() && started && open && activeEpoch == 0
      modifies this`connecting, this`retryMs, this`epoch, this`activeEpoch, this`connected, this`trace
      ensures Valid() && LineView() == LineUp(old(LineView())) && retryMs == FIRST_RETRY
      ensures epoch == activeEpoch == old(epoch) + 1 && connected && !connecting
      ensures trace == old(trace) + [Connected(epoch)]
      ensures TrafficView() == old(TrafficView())
    {
      UpKeepsLine(LineView());
      assert TrafficOk(TrafficView(), activeEpoch + 1);
      hide TrafficOk, LineOk;
      connecting := false;
      retryMs := FIRST_RETRY;
      epoch := epoch + 1;
      activeEpoch := epoch;
      connected := true;
      trace := trace + [Connected(epoch)];
      assert LineView() == LineUp(old(LineView()));
      StillOk(TrafficView(), activeEpoch);
    }

    static lemma StillOk(t: Traffic, active: nat)
      requires TrafficOk(t, active) || (TrafficOk(t, 0) && active > 0)
      ensures TrafficOk(t, active)
    {
    }

    /** The queue of the epoch is dropped with its socket, and the end is told. */
    method EndEpoch()
      requires Valid()
      modifies this
      ensures Valid() && LineView() == LineDown(old(LineView()))
      ensures TrafficView() == TrafficDropped(old(TrafficView()), old(activeEpoch))
      ensures retryMs == old(retryMs) && !open && !connecting && !connected && activeEpoch == 0
      ensures trace == if old(activeEpoch) == 0 then old(trace) else old(trace) + [Disconnected(old(activeEpoch))]
    {
      hide LineOk, TrafficOk;
      ghost var line := LineDown(LineView());
      ghost var traffic := TrafficDropped(TrafficView(), activeEpoch);
      DownKeepsLine(LineView());
      DropKeepsTraffic(TrafficView(), activeEpoch);
      assert line == Line(started, false, epoch, 0, false, false, line.trace) && traffic == NoTraffic(traffic.past);
      hide *;
      ClearQueue();
      DropSocket(line.trace, traffic.past);
      FieldsAre(line, traffic);
    }

    method DropSocket(ghost told: seq<Callback>, ghost over: seq<Past>)
      modifies this`connected, this`open, this`connecting, this`activeEpoch, this`trace, this`past
      ensures !connected && !open && !connecting && activeEpoch == 0 && trace == told && past == over
    {
      connected, open, connecting, activeEpoch := false, false, false, 0;
      trace, past := told, over;
    }

    method ClearQueue()
      modifies this`frames, this`pendingBytes, this`pendingFrames, this`received, this`sending, this`sent
      modifies this`accepted, this`wire
      ensures frames == [] && pendingBytes == 0 && pendingFrames == 0 && received == [] && sending == [] && sent == 0
      ensures accepted == [] && wire == []
    {
      frames, pendingBytes, pendingFrames := [], 0, 0;
      received, sending, sent := [], [], 0;
      accepted, wire := [], [];
    }

    lemma FieldsAre(line: Line, traffic: Traffic)
      requires line.trace == trace && traffic.past == past && traffic == NoTraffic(past)
      requires line == Line(started, false, epoch, 0, false, false, trace)
      requires !connected && !open && !connecting && activeEpoch == 0 && sending == [] && received == []
      requires frames == [] && pendingBytes == 0 && pendingFrames == 0 && accepted == [] && wire == []
      requires LineOk(line) && TrafficOk(traffic, 0) && FIRST_RETRY <= retryMs <= LAST_RETRY
      ensures Valid() && LineView() == line && TrafficView() == traffic
    {
    }

    /** The next attempt is put off, after failed attempts for longer and longer. */
    method Disconnect(now: nat)
      requires Valid()
      modifies this
      ensures Valid() && LineView() == LineDown(old(LineView()))
      ensures TrafficView() == TrafficDropped(old(TrafficView()), old(activeEpoch))
      ensures !open && !connecting && !connected && activeEpoch == 0 && deadline == now + old(retryMs)
      ensures trace == if old(activeEpoch) == 0 then old(trace) else old(trace) + [Disconnected(old(activeEpoch))]
      ensures retryMs == if old(activeEpoch) != 0 then old(retryMs)
        else if old(retryMs) * 2 < LAST_RETRY then old(retryMs) * 2 else LAST_RETRY
    {
      hide LineOk, TrafficOk, LineDown, TrafficDropped;
      var failed := activeEpoch == 0;
      EndEpoch();
      deadline := now + retryMs;
      if failed {
        retryMs := if retryMs * 2 < LAST_RETRY then retryMs * 2 else LAST_RETRY;
      }
    }

    /** Takes complete messages out of what has arrived and passes them on under the epoch; a length that
        cannot be ends the epoch. */
    method Receive(data: Bytes, now: nat)
      requires Valid() && activeEpoch != 0
      modifies this
      ensures Valid()
      ensures var p := Parse(Media, old(received) + data);
        var l := LineMessages(old(LineView()), p.frames);
        if p.refused then
          LineView() == LineDown(l) && TrafficView() == TrafficDropped(old(TrafficView()), old(activeEpoch))
        else LineView() == l && TrafficView() == old(TrafficView()) && received == p.rest
    {
      hide TrafficOk, LineOk, Complete, First, Beyond, Refuses, Parse, Encode, EncodeAll;
      received := received + data;
      ghost var arrived, taken: seq<Frame> := received, [];
      ghost var before := LineView();
      ParseFromStart(arrived);
      assert before == LineMessages(before, []);
      while |received| >= HEADER
        invariant activeEpoch == before.active && activeEpoch != 0
        invariant LineView() == LineMessages(before, taken) && TrafficView() == old(TrafficView())
        invariant Parse(Media, arrived) == Parse(Media, received).(frames := taken + Parse(Media, received).frames)
        invariant retryMs == old(retryMs)
        decreases |received|
      {
        MediaTurn(taken, received);
        MessagesKeepLine(before, taken);
        if Refuses(Media, received) {
          assert Parse(Media, arrived).frames == taken;
          Disconnect(now);
          return;
        }
        if !Complete(Media, received) {
          break;
        }
        var f := First(Media, received);
        MoreMessages(activeEpoch, taken, f);
        taken := taken + [f];
        trace := trace + [Message(activeEpoch, f.payload)];
        received := Beyond(Media, received);
      }
      MessagesKeepLine(before, taken);
      MediaTurn(taken, received);
    }

    /** The next frame is fetched when the last one is complete. */
    method FetchNext()
      requires Valid() && activeEpoch != 0
      modifies this`sending, this`frames, this`sent
      ensures Valid() && TrafficView() == Fetched(old(TrafficView()))
    {
      FetchKeepsTraffic(TrafficView(), activeEpoch);
      hide TrafficOk, LineOk, EncodeAll, Counted, Carries;
      if sending == [] && frames != [] {
        NextNotEmpty();
        sending, frames, sent := frames[0], frames[1..], 0;
      }
      assert TrafficView() == Fetched(old(TrafficView()));
    }

    /** One write, while business threads go on. What the socket takes is accounted for; if it fails, the epoch
        ends with what was accepted and written so far. */
    method WritePiece(now: nat)
      requires Valid() && activeEpoch != 0
      modifies this
      ensures Valid() && started == old(started)
      ensures activeEpoch == old(activeEpoch) || activeEpoch == 0
      ensures activeEpoch != 0 ==>
        trace == old(trace) && past == old(past) && old(accepted) <= accepted &&
        old(wire) <= wire <= EncodeAll(Media, accepted)
      ensures activeEpoch == 0 ==> trace == old(trace) + [Disconnected(old(activeEpoch))]
      ensures activeEpoch == 0 ==>
        |past| == |old(past)| + 1 && past[..|old(past)|] == old(past) &&
        var p := past[|old(past)|]; p.epoch == old(activeEpoch) && old(accepted) <= p.accepted && p.wire == old(wire)
    {
      hide TrafficOk, LineOk, EncodeAll, Counted, Carries;
      FetchNext();
      Others();
      WireOfEpoch();
      var fails: bool, count: int := *, *;
      if sending != [] {
        if fails {
          Disconnect(now);
        } else if 0 < count <= |sending| - sent && count <= BUDGET {
          Account(count);
          WireOfEpoch();
        }
      }
    }

    lemma StateOfEpoch()
      requires Valid()
      ensures (connected ==> activeEpoch != 0) && (connecting ==> activeEpoch == 0)
    {
    }

    lemma NextNotEmpty()
      requires Valid() && frames != []
      ensures frames[0] != []
    {
      assert frames[0] in frames;
    }

    lemma WireOfEpoch()
      requires TrafficOk(TrafficView(), activeEpoch)
      ensures wire <= EncodeAll(Media, accepted)
    {
      WireIsPrefix(TrafficView().o, EncodeAll(Media, accepted), wire);
    }

    lemma PlaceIsHeld()
      requires Valid() && sending != []
      ensures pendingBytes >= |sending| && pendingFrames > 0
    {
      FirstFits([sending]);
      assert Flat([sending]) == sending + [];
    }

    method Account(count: nat)
      requires Valid() && sending != [] && 0 < count <= |sending| - sent
      modifies this`sending, this`sent, this`pendingBytes, this`pendingFrames, this`wire
      ensures Valid() && TrafficView() == TrafficWritten(old(TrafficView()), count)
      ensures old(wire) <= wire
    {
      PlaceIsHeld();
      WriteKeepsTraffic(TrafficView(), count, activeEpoch);
      ghost var next := TrafficWritten(TrafficView(), count);
      hide TrafficOk, LineOk, Flat, Carries, EncodeAll, NoneEmpty;
      wire := next.wire;
      sent := sent + count;
      if sent == |sending| {
        pendingBytes := pendingBytes - |sending|;
        pendingFrames := pendingFrames - 1;
        sending, sent := [], 0;
      }
      assert TrafficView() == next;
    }

    /** The loop's turn: an epoch that was given up is ended, and a new attempt is made when it is time. */
    method Tick(now: nat)
      requires Valid()
      modifies this
      ensures Valid() && started == old(started)
      ensures started ==> activeEpoch == 0 || connected
      ensures old(activeEpoch) != 0 && old(connected) ==> LineView() == old(LineView())
      ensures old(activeEpoch) != 0 && old(connected) ==> TrafficView() == old(TrafficView())
      ensures started && old(activeEpoch) != 0 && !old(connected) ==>
        !open && deadline == now + old(retryMs) && trace == old(trace) + [Disconnected(old(activeEpoch))]
      ensures started && old(connecting) && now >= old(deadline) ==>
        !open && deadline == now + old(retryMs) && trace == old(trace)
      ensures old(activeEpoch) == 0 && now < old(deadline) ==>
        LineView() == old(LineView()) && deadline == old(deadline)
      ensures started && !old(open) && now >= old(deadline) ==> open || deadline > now
    {
      hide TrafficOk, InBlocks, NewerThanAll;
      if !started {
        return;
      }
      if (activeEpoch != 0 && !connected) || (connecting && now >= deadline) {
        Disconnect(now);
      }
      if !open && now >= deadline {
        Connect(now);
      }
    }

    method Connect(now: nat)
      requires Valid() && started && !open
      modifies this
      ensures Valid() && started && (activeEpoch == 0 || connected)
      ensures deadline > now && (open ==> connecting == (activeEpoch == 0))
      ensures trace == if activeEpoch == 0 then old(trace) else old(trace) + [Connected(activeEpoch)]
    {
      hide TrafficOk, InBlocks, NewerThanAll;
      var usable: bool, fails: bool := *, *;
      open, connecting := true, !usable;
      if fails {
        Disconnect(now);
      } else {
        deadline := now + 1000;
        if usable {
          BecomeConnected();
        }
      }
    }

    /** What the loop does when the socket has events, with business threads going on between its locked
        sections; `broken` is an error, a hang-up or the end of the stream, `data` what has arrived. */
    method HandleEvents(usable: bool, broken: bool, data: Bytes, writable: bool, now: nat)
      requires Valid() && started
      modifies this
      ensures Valid() && started && old(trace) <= trace
      ensures !old(open) ==> LineView() == old(LineView()) && TrafficView() == old(TrafficView())
      ensures old(open) && old(connecting) && !usable ==> !open && trace == old(trace)
      ensures old(open) && old(connecting) && usable ==> old(trace) + [Connected(old(epoch) + 1)] <= trace
      ensures old(open) && broken ==> !open && activeEpoch == 0
      ensures old(open) && !old(connecting) && broken && old(activeEpoch) != 0 ==>
        trace == old(trace) + [Disconnected(old(activeEpoch))]
    {
      hide TrafficOk, LineOk, Parse, Messages, TrafficDropped, EncodeAll;
      if !open {
        return;
      }
      if connecting {
        StateOfEpoch();
        if !usable {
          Disconnect(now);
          return;
        }
        BecomeConnected();
      }
      ReadAndWrite(broken, data, writable, now);
    }

    method ReadAndWrite(broken: bool, data: Bytes, writable: bool, now: nat)
      requires Valid() && started
      modifies this
      ensures Valid() && started && old(trace) <= trace
      ensures broken ==> !open && activeEpoch == 0
      ensures broken && old(activeEpoch) != 0 ==> trace == old(trace) + [Disconnected(old(activeEpoch))]
    {
      hide TrafficOk, LineOk, Parse, Messages, TrafficDropped, EncodeAll;
      Others();
      StateOfEpoch();
      if !connected || broken {
        Disconnect(now);
        return;
      }
      Others();
      Receive(data, now);
      if activeEpoch != 0 && writable {
        Others();
        WritePiece(now);
      }
    }
  }
}
