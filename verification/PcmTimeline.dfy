/**
 The microphone queue and its timeline (audioencodeworker.cpp): 16-bit samples arrive in chunks of any
 size, the oldest are dropped when the encoder falls behind, and every encoded frame is stamped with the
 position in time of what it holds.
 */
module PcmTimeline {
  newtype byte = x: int | 0 <= x < 256

  type Bytes = seq<byte>

  const FRAME_SAMPLES: nat := 960
  const FRAME: nat := 1920            // bytes
  const MAX_QUEUED: nat := 3 * 1920
  const TIMESTAMPS: nat := 0x1_0000_0000

  /** An encoded frame; `at` are the positions its bytes had in everything captured since the start. */
  datatype Encoded = Encoded(data: Bytes, pts: nat, timestamp: nat, at: seq<nat>)

  /** `stream` is everything accepted since the start, `at` the positions of the buffered bytes in it. */
  datatype Pcm = Pcm(
    pending: Bytes, dropped: nat, buffer: Bytes, pts: nat, timestamp: nat,
    stream: Bytes, at: seq<nat>, applied: nat, frames: seq<Encoded>)

  function Started(): Pcm {
    Pcm([], 0, [], 0, 0, [], [], 0, [])
  }

  // ---- The queue ----

  /** How many bytes have to go for the queue to fit, in whole samples. */
  function Overflow(size: nat): nat {
    if size > MAX_QUEUED then (size - MAX_QUEUED) - (size - MAX_QUEUED) % 2 else 0
  }

  function Enqueued(p: Pcm, data: Bytes): Pcm {
    var all := p.pending + data;
    var over := Overflow(|all|);
    p.(pending := all[over..], dropped := p.dropped + over / 2, stream := p.stream + data)
  }

  // ---- The encoder ----

  function Span(start: nat, length: nat): (s: seq<nat>)
    ensures |s| == length && forall i :: 0 <= i < length ==> s[i] == start + i
  {
    seq(length, i requires 0 <= i < length => start + i)
  }

  /** The whole queue is taken, and the timeline moves past what was dropped before it. */
  function Taken(p: Pcm): Pcm
    requires |p.pending| <= |p.stream|
  {
    p.(pending := [], dropped := 0, applied := p.applied + p.dropped,
       pts := p.pts + p.dropped, timestamp := (p.timestamp + p.dropped) % TIMESTAMPS,
       buffer := p.buffer + p.pending, at := p.at + Span(|p.stream| - |p.pending|, |p.pending|))
  }

  function FrameEncoded(p: Pcm): Pcm
    requires |p.buffer| == |p.at| >= FRAME
  {
    p.(buffer := p.buffer[FRAME..], at := p.at[FRAME..],
       pts := p.pts + FRAME_SAMPLES, timestamp := (p.timestamp + FRAME_SAMPLES) % TIMESTAMPS,
       frames := p.frames + [Encoded(p.buffer[..FRAME], p.pts, p.timestamp, p.at[..FRAME])])
  }

  // ---- What holds ----

  ghost predicate Rising(at: seq<nat>) {
    forall i, j :: 0 <= i < j < |at| ==> at[i] < at[j]
  }

  /** The bytes are those at these positions of the stream, in capture order, low bytes staying low and high
      bytes high. */
  ghost predicate Captured(data: Bytes, at: seq<nat>, stream: Bytes) {
    && |data| == |at| && Rising(at)
    && forall i :: 0 <= i < |at| ==> at[i] < |stream| && data[i] == stream[at[i]] && at[i] % 2 == i % 2
  }

  /** The stamp is the position in time of the last sample of the frame, less the length before it. */
  ghost predicate Stamped(f: Encoded, stream: Bytes) {
    && |f.data| == FRAME && Captured(f.data, f.at, stream)
    && f.at[FRAME - 1] == 2 * (f.pts + FRAME_SAMPLES) - 1
    && f.timestamp == f.pts % TIMESTAMPS
  }

  ghost predicate Conserved(p: Pcm) {
    && |p.stream| == 2 * (p.pts + p.dropped) + |p.buffer| + |p.pending|
    && p.pts == FRAME_SAMPLES * |p.frames| + p.applied
    && p.timestamp == p.pts % TIMESTAMPS
    && |p.pending| <= MAX_QUEUED + 1 && (p.dropped > 0 ==> |p.pending| >= MAX_QUEUED)
  }

  ghost predicate Placed(p: Pcm) {
    && |p.pending| <= |p.stream| && p.pending == p.stream[|p.stream| - |p.pending|..]
    && Captured(p.buffer, p.at, p.stream)
    && (p.at != [] ==> p.at[|p.at| - 1] == 2 * p.pts + |p.at| - 1)
  }

  /** From index c on the buffer holds what was captured without a gap. */
  ghost predicate TailFrom(p: Pcm, c: nat) {
    forall i :: c <= i < |p.at| ==> p.at[i] == 2 * p.pts + i
  }

  ghost predicate AllStamped(p: Pcm) {
    forall f :: f in p.frames ==> Stamped(f, p.stream)
  }

  ghost predicate Inv(p: Pcm) {
    Conserved(p) && Placed(p) && AllStamped(p)
  }

  lemma CapturedStays(data: Bytes, at: seq<nat>, stream: Bytes, more: Bytes)
    requires Captured(data, at, stream)
    ensures Captured(data, at, stream + more)
  {
  }

  lemma EnqueuedKeepsInv(p: Pcm, data: Bytes)
    requires Inv(p)
    ensures Inv(Enqueued(p, data))
  {
    var q := Enqueued(p, data);
    var all := p.pending + data;
    assert all == q.stream[|q.stream| - |all|..];
    assert q.pending == q.stream[|q.stream| - |q.pending|..];
    CapturedStays(p.buffer, p.at, p.stream, data);
    hide Captured;
    forall f | f in q.frames ensures Stamped(f, q.stream) {
      assert Stamped(f, p.stream);
      CapturedStays(f.data, f.at, p.stream, data);
    }
  }

  lemma StampMoves(stamp: nat, pts: nat, step: nat)
    requires stamp == pts % TIMESTAMPS
    ensures (stamp + step) % TIMESTAMPS == (pts + step) % TIMESTAMPS
  {
  }

  lemma TakenKeepsInv(p: Pcm)
    requires Inv(p)
    ensures Inv(Taken(p)) && TailFrom(Taken(p), |p.buffer|)
  {
    hide Captured, Stamped, TailFrom;
    TakenIsCaptured(p);
    StampMoves(p.timestamp, p.pts, p.dropped);
  }

  lemma EvenShift(a: nat, i: nat)
    ensures (2 * a + i) % 2 == i % 2
  {
  }

  /** The position of every byte of the batch, right after those buffered and those dropped. */
  lemma TakenPlaces(p: Pcm)
    requires Conserved(p) && Placed(p)
    ensures var q, n := Taken(p), |p.buffer|;
      && |q.buffer| == |q.at| && q.stream == p.stream && q.pts == p.pts + p.dropped
      && (forall i :: 0 <= i < n ==> q.at[i] == p.at[i] && q.buffer[i] == p.buffer[i])
      && (forall i :: n <= i < |q.at| ==>
            q.at[i] == 2 * q.pts + i && q.at[i] < |q.stream| && q.buffer[i] == q.stream[q.at[i]])
  {
    hide Rising;
    var q, n := Taken(p), |p.buffer|;
    forall i | n <= i < |q.at|
      ensures q.at[i] == 2 * q.pts + i && q.at[i] < |q.stream| && q.buffer[i] == q.stream[q.at[i]]
    {
      assert q.buffer[i] == p.pending[i - n];
    }
  }

  lemma TakenRises(p: Pcm)
    requires Conserved(p) && Placed(p)
    ensures Rising(Taken(p).at)
  {
    var q, n := Taken(p), |p.buffer|;
    TakenPlaces(p);
    assert n > 0 ==> forall i :: 0 <= i < n ==> p.at[i] <= p.at[n - 1];
    hide Taken;
  }

  lemma TakenIsCaptured(p: Pcm)
    requires Conserved(p) && Placed(p)
    ensures Captured(Taken(p).buffer, Taken(p).at, Taken(p).stream) && TailFrom(Taken(p), |p.buffer|)
    ensures Placed(Taken(p))
  {
    var q, n := Taken(p), |p.buffer|;
    TakenRises(p);
    TakenPlaces(p);
    assert q.pending == [] == q.stream[|q.stream|..];
    hide Rising, Taken;
    forall i | 0 <= i < |q.at| ensures q.at[i] % 2 == i % 2 {
      EvenShift(q.pts, i);
    }
  }

  lemma FrameKeepsInv(p: Pcm, c: nat)
    requires Inv(p) && TailFrom(p, c) && c < FRAME <= |p.buffer|
    ensures Inv(FrameEncoded(p)) && TailFrom(FrameEncoded(p), 0)
  {
    var q := FrameEncoded(p);
    var f := q.frames[|p.frames|];
    FrameIsCaptured(p);
    StampMoves(p.timestamp, p.pts, FRAME_SAMPLES);
    assert f.at[FRAME - 1] == 2 * p.pts + FRAME - 1;
    hide Captured;
    assert Stamped(f, p.stream);
    assert forall g :: g in q.frames ==> g == f || g in p.frames;
    hide Stamped;
  }

  lemma FrameIsCaptured(p: Pcm)
    requires Captured(p.buffer, p.at, p.stream) && |p.buffer| >= FRAME
    ensures Captured(p.buffer[..FRAME], p.at[..FRAME], p.stream)
    ensures Captured(p.buffer[FRAME..], p.at[FRAME..], p.stream)
  {
    var rest := p.at[FRAME..];
    forall i | 0 <= i < |rest| ensures rest[i] % 2 == i % 2 {
      assert p.at[i + FRAME] % 2 == (i + FRAME) % 2;
    }
  }

  predicate Lengths(p: Pcm) {
    |p.buffer| == |p.at| && |p.pending| <= |p.stream|
  }

  function Drained(p: Pcm): (d: Pcm)
    requires |p.buffer| == |p.at|
    ensures |d.buffer| == |d.at| && d.pending == p.pending && d.stream == p.stream
    decreases |p.buffer|
  {
    if |p.buffer| < FRAME then p else Drained(FrameEncoded(p))
  }

  /** One turn of the encoder: everything queued, then every complete frame. */
  function Processed(p: Pcm): Pcm
    requires Lengths(p)
  {
    Drained(Taken(p))
  }

  lemma {:induction false} DrainedKeepsInv(p: Pcm, c: nat)
    requires Inv(p) && TailFrom(p, c) && c < FRAME
    ensures Inv(Drained(p)) && |Drained(p).buffer| < FRAME && Drained(p).pending == p.pending
    ensures Drained(p).stream == p.stream && Drained(p).applied == p.applied && Drained(p).dropped == p.dropped
    decreases |p.buffer|
  {
    hide Conserved, Placed, AllStamped, TailFrom;
    if |p.buffer| >= FRAME {
      FrameKeepsInv(p, c);
      InvLengths(p);
      DrainedKeepsInv(FrameEncoded(p), 0);
    } else { InvLengths(p); }
  }

  lemma InvLengths(p: Pcm)
    requires Inv(p)
    ensures Lengths(p)
  {
  }

  /** Between start and stop, in any order of capture and encoding. */
  datatype Step = Enqueue(data: Bytes) | Process

  function Next(p: Pcm, step: Step): (q: Pcm)
    requires Lengths(p)
    ensures Lengths(q)
  {
    match step
    case Enqueue(data) => Enqueued(p, data)
    case Process => Processed(p)
  }

  function Run(p: Pcm, steps: seq<Step>): (q: Pcm)
    requires Lengths(p)
    ensures Lengths(q)
    decreases |steps|
  {
    if steps == [] then p else Run(Next(p, steps[0]), steps[1..])
  }

  ghost predicate Between(p: Pcm) {
    Inv(p) && |p.buffer| < FRAME
  }

  lemma StepKeepsInv(p: Pcm, step: Step)
    requires Between(p) && Lengths(p)
    ensures Between(Next(p, step))
  {
    hide Conserved, Placed, AllStamped;
    match step
    case Enqueue(data) => EnqueuedKeepsInv(p, data);
    case Process =>
      TakenKeepsInv(p);
      DrainedKeepsInv(Taken(p), |p.buffer|);
  }

  lemma {:induction false} RunKeepsInv(p: Pcm, steps: seq<Step>)
    requires Between(p) && Lengths(p)
    ensures Between(Run(p, steps))
    decreases |steps|
  {
    hide Between, Next;
    if steps != [] {
      StepKeepsInv(p, steps[0]);
      RunKeepsInv(Next(p, steps[0]), steps[1..]);
    }
  }

  lemma StartInv()
    ensures Between(Started())
  {
  }

  lemma Balance(p: Pcm)
    requires Conserved(p)
    ensures |p.stream| == 2 * (p.applied + p.dropped) + |p.pending| + |p.buffer| + FRAME * |p.frames|
  {
  }

  /** Nothing is lost but what was dropped, and the timeline covers exactly what was encoded and dropped. */
  lemma Conservation(steps: seq<Step>)
    ensures var p := Run(Started(), steps);
      && |p.stream| == 2 * (p.applied + p.dropped) + |p.pending| + |p.buffer| + FRAME * |p.frames|
      && p.pts == FRAME_SAMPLES * |p.frames| + p.applied && p.timestamp == p.pts % TIMESTAMPS
      && |p.pending| <= MAX_QUEUED + 1 && |p.buffer| < FRAME
  {
    hide Placed, AllStamped, Run;
    StartInv();
    RunKeepsInv(Started(), steps);
    Balance(Run(Started(), steps));
  }

  /** Every encoded frame consists of captured bytes in capture order, low and high bytes in their places,
      and its stamp is that of its last sample: the frame ends where its time span ends. */
  lemma FramesEndOnTime(steps: seq<Step>, f: Encoded)
    requires f in Run(Started(), steps).frames
    ensures Stamped(f, Run(Started(), steps).stream)
  {
    hide Conserved, Placed, Stamped, Run;
    StartInv();
    RunKeepsInv(Started(), steps);
  }

  /** The stamp is that of the first sample exactly when no drop fell inside the frame; otherwise the frame
      begins earlier than it says. */
  lemma StampOfFirstSample(f: Encoded, stream: Bytes)
    requires Stamped(f, stream)
    ensures f.at[0] <= 2 * f.pts
    ensures f.at[0] == 2 * f.pts <==> forall i :: 0 <= i < FRAME ==> f.at[i] == f.at[0] + i
  {
    AtLeast(f.at, FRAME - 1);
    if f.at[0] == 2 * f.pts {
      forall i | 0 <= i < FRAME ensures f.at[i] == f.at[0] + i {
        AtLeast(f.at, i);
        AtLeast(f.at[i..], FRAME - 1 - i);
      }
    }
  }

  lemma {:induction false} AtLeast(at: seq<nat>, n: nat)
    requires Rising(at) && n < |at|
    ensures at[n] >= at[0] + n
  {
    if n > 0 {
      AtLeast(at, n - 1);
    }
  }

  // ---- Whole samples ----

  /** The two bytes of every sample were captured together. */
  ghost predicate Whole(at: seq<nat>) {
    forall i :: 0 <= i < |at| - 1 && i % 2 == 0 ==> at[i + 1] == at[i] + 1
  }

  /** Taking a batch tears a sample exactly when something was dropped before it and the buffer ends in the
      middle of a sample. */
  lemma TornExactly(p: Pcm)
    requires Inv(p) && Whole(p.at)
    ensures !Whole(Taken(p).at) <==> |p.buffer| % 2 == 1 && p.dropped > 0
  {
    hide Stamped, Rising;
    var q, n := Taken(p), |p.buffer|;
    TakenPlaces(p);
    if n % 2 == 1 && p.pending != [] {
      assert q.at[n - 1] == 2 * p.pts + n - 1 && q.at[n] == 2 * q.pts + n;
    }
    hide Taken, Captured;
  }

  /** All of the frame was captured in one piece, in the very span of time its stamp says. */
  ghost predicate OnTime(f: Encoded) {
    forall i :: 0 <= i < |f.at| ==> f.at[i] == 2 * f.pts + i
  }

  /** Of the frames made in one turn only the first can hold bytes from before a drop. */
  lemma {:induction false} DrainedFrames(p: Pcm, c: nat)
    requires Inv(p) && TailFrom(p, c) && c < FRAME && Lengths(p)
    ensures var d, n := Drained(p), |p.frames|;
      && p.frames <= d.frames
      && (forall i :: n < i < |d.frames| ==> OnTime(d.frames[i]))
      && (|d.frames| > n <==> |p.buffer| >= FRAME)
      && (|d.frames| > n ==> d.frames[n] == FrameEncoded(p).frames[n] && TailFrom(d, 0))
      && (|d.frames| == n ==> d == p)
    decreases |p.buffer|
  {
    hide Conserved, Placed, AllStamped;
    if |p.buffer| >= FRAME {
      var q := FrameEncoded(p);
      FrameKeepsInv(p, c);
      DrainedFrames(q, 0);
      if |q.buffer| >= FRAME {
        assert OnTime(FrameEncoded(q).frames[|q.frames|]);
      }
      hide TailFrom, OnTime;
      FramesJoin(p, q, Drained(p));
    }
  }

  lemma FramesJoin(p: Pcm, q: Pcm, d: Pcm)
    requires p.frames <= q.frames <= d.frames && |q.frames| == |p.frames| + 1
    ensures p.frames <= d.frames && d.frames[|p.frames|] == q.frames[|p.frames|]
  {
  }

  lemma TakenTail(p: Pcm)
    requires Conserved(p) && Placed(p) && TailFrom(p, 0) && p.dropped == 0
    ensures TailFrom(Taken(p), 0)
  {
    TakenPlaces(p);
  }

  /** What the encoder keeps for its next turn was always captured in one piece, whatever the sizes of the
      chunks. */
  lemma StepKeepsTail(p: Pcm, step: Step)
    requires Between(p) && Lengths(p) && TailFrom(p, 0)
    ensures TailFrom(Next(p, step), 0)
  {
    hide AllStamped, Captured;
    if step.Process? {
      TakenKeepsInv(p);
      DrainedFrames(Taken(p), |p.buffer|);
      TornNeedsFullQueue(p);
      if p.dropped == 0 { TakenTail(p); }
      hide Conserved, Placed, TailFrom;
    }
  }

  lemma TornNeedsFullQueue(p: Pcm)
    requires Conserved(p)
    ensures p.dropped > 0 ==> |p.pending| >= MAX_QUEUED
  {
  }

  lemma TailIsWhole(p: Pcm)
    ensures TailFrom(p, 0) ==> Whole(p.at)
  {
  }

  lemma {:induction false} RunKeepsTail(p: Pcm, steps: seq<Step>)
    requires Between(p) && Lengths(p) && TailFrom(p, 0)
    ensures Between(Run(p, steps)) && TailFrom(Run(p, steps), 0)
    decreases |steps|
  {
    hide Between, Next, TailFrom;
    if steps != [] {
      StepKeepsInv(p, steps[0]);
      StepKeepsTail(p, steps[0]);
      RunKeepsTail(Next(p, steps[0]), steps[1..]);
    }
  }

  /** A gap before index FRAME shows in the first frame. */
  lemma TornInFirst(q: Pcm, c: nat)
    requires TailFrom(q, c) && c < FRAME <= |q.at|
    ensures Whole(q.at[..FRAME]) <==> Whole(q.at)
  {
    var first := q.at[..FRAME];
    assert forall i :: 0 <= i < FRAME ==> first[i] == q.at[i];
    if Whole(first) {
      forall i | 0 <= i < |q.at| - 1 && i % 2 == 0 ensures q.at[i + 1] == q.at[i] + 1 {
        if i < FRAME { assert i < FRAME - 1 && first[i + 1] == first[i] + 1; }
      }
    }
  }

  /** The first frame begins with the first byte kept from the turn before. */
  lemma FirstByte(p: Pcm)
    requires Conserved(p) && Placed(p) && TailFrom(p, 0) && |p.buffer| + |p.pending| >= FRAME
    ensures var q := Taken(p);
      |q.at| == |q.buffer| >= FRAME && (q.at[0] == 2 * q.pts <==> !(p.buffer != [] && p.dropped > 0))
  {
    TakenPlaces(p);
  }

  ghost predicate Torn(f: Encoded) {
    !Whole(f.at)
  }

  ghost predicate Late(f: Encoded) {
    f.at == [] || f.at[0] != 2 * f.pts
  }

  lemma OnTimeIsNeither(f: Encoded)
    requires OnTime(f) && f.at != []
    ensures !Torn(f) && !Late(f)
  {
  }

  /** The frames that a turn of the encoder makes. */
  lemma TurnFrames(p: Pcm, i: nat)
    requires Between(p) && TailFrom(p, 0) && Lengths(p) && |p.frames| <= i < |Processed(p).frames|
    ensures var f := Processed(p).frames[i];
      && (Torn(f) <==> i == |p.frames| && p.dropped > 0 && |p.buffer| % 2 == 1)
      && (Late(f) <==> i == |p.frames| && p.dropped > 0 && p.buffer != [])
  {
    var q, d := Taken(p), Processed(p);
    hide AllStamped, Captured, Whole, OnTime;
    TakenKeepsInv(p);
    DrainedFrames(q, |p.buffer|);
    if i == |p.frames| {
      TailIsWhole(p);
      TornExactly(p);
      TornInFirst(q, |p.buffer|);
      FirstByte(p);
      hide Conserved, Placed, TailFrom;
    } else {
      assert d.frames[i].at != [] by { FrameLength(p, d.frames[i]); }
      OnTimeIsNeither(d.frames[i]);
    }
  }

  lemma FrameLength(p: Pcm, f: Encoded)
    requires Between(p) && Lengths(p) && f in Processed(p).frames
    ensures f.at != []
  {
    StepKeepsInv(p, Process);
    assert Stamped(f, Processed(p).stream);
  }

  /** In every run, of the frames that the next turn of the encoder makes only the first can hold a torn
      sample, and does exactly when samples were dropped while the buffer ended in the middle of one; and
      only its stamp can be later than its first sample, and is exactly when samples were dropped while
      bytes were left in the buffer. After a drop the turn makes a frame. */
  lemma TornAndLateExactly(steps: seq<Step>, i: nat)
    requires var p := Run(Started(), steps); |p.frames| <= i < |Processed(p).frames|
    ensures var p := Run(Started(), steps);
      && (Torn(Processed(p).frames[i]) <==> i == |p.frames| && p.dropped > 0 && |p.buffer| % 2 == 1)
      && (Late(Processed(p).frames[i]) <==> i == |p.frames| && p.dropped > 0 && p.buffer != [])
  {
    StartInv();
    RunKeepsTail(Started(), steps);
    TurnFrames(Run(Started(), steps), i);
  }

  lemma DropsMakeFrames(steps: seq<Step>)
    ensures var p := Run(Started(), steps); p.dropped > 0 ==> |Processed(p).frames| > |p.frames|
  {
    StartInv();
    RunKeepsInv(Started(), steps);
    var p := Run(Started(), steps);
    hide Run, AllStamped, Captured;
    if p.dropped > 0 {
      TornNeedsFullQueue(p);
      TakenKeepsInv(p);
      DrainedFrames(Taken(p), |p.buffer|);
    }
  }

  function Silence(n: nat): (data: Bytes)
    ensures |data| == n
  {
    seq(n, i requires 0 <= i < n => 0)
  }

  /** So few bytes are kept that the next turn drops one sample. */
  lemma OneDropped(n: nat)
    requires n == 1 || n == 2
    ensures var p := Run(Started(), [Enqueue(Silence(n)), Process, Enqueue(Silence(MAX_QUEUED + 2))]);
      p.dropped == 1 && |p.buffer| == n && p.frames == [] && Processed(p).frames != []
  {
    var s := Silence(n);
    var a := Enqueued(Started(), s);
    assert a == Started().(pending := s, stream := s);
    var b := Processed(a);
    assert b.pending == [] && b.buffer == s && b.frames == [] && b.dropped == 0;
    var p := Enqueued(b, Silence(MAX_QUEUED + 2));
    RunOfThree(Started(), Enqueue(s), Process, Enqueue(Silence(MAX_QUEUED + 2)));
    hide Run, Processed;
    DropsMakeFrames([Enqueue(s), Process, Enqueue(Silence(MAX_QUEUED + 2))]);
  }

  lemma RunOfThree(p: Pcm, a: Step, b: Step, c: Step)
    requires Lengths(p)
    ensures Run(p, [a, b, c]) == Next(Next(Next(p, a), b), c)
  {
    hide Next;
    assert Run(p, []) == p;
    hide Run;
    RunOneMore(p, [], a);
    assert [] + [a] == [a];
    RunOneMore(p, [a], b);
    assert [a] + [b] == [a, b];
    RunOneMore(p, [a, b], c);
    assert [a, b] + [c] == [a, b, c];
  }

  /** Both do happen: a chunk of one byte and a stall tear a sample ... */
  lemma SomeSampleIsTorn()
    ensures var steps := [Enqueue(Silence(1)), Process, Enqueue(Silence(MAX_QUEUED + 2)), Process];
      exists f :: f in Run(Started(), steps).frames && Torn(f)
  {
    var steps := [Enqueue(Silence(1)), Process, Enqueue(Silence(MAX_QUEUED + 2))];
    OneDropped(1);
    TornAndLateExactly(steps, 0);
    RunOneMore(Started(), steps, Process);
    hide Run, Processed;
    assert steps + [Process] == [Enqueue(Silence(1)), Process, Enqueue(Silence(MAX_QUEUED + 2)), Process];
  }

  /** ... and with a chunk of one sample the stamp is too late for the sample the frame begins with. */
  lemma SomeStampIsLate()
    ensures var steps := [Enqueue(Silence(2)), Process, Enqueue(Silence(MAX_QUEUED + 2)), Process];
      exists f :: f in Run(Started(), steps).frames && Late(f) && !Torn(f)
  {
    var steps := [Enqueue(Silence(2)), Process, Enqueue(Silence(MAX_QUEUED + 2))];
    OneDropped(2);
    TornAndLateExactly(steps, 0);
    RunOneMore(Started(), steps, Process);
    hide Run, Processed;
    assert steps + [Process] == [Enqueue(Silence(2)), Process, Enqueue(Silence(MAX_QUEUED + 2)), Process];
  }

  lemma {:induction false} RunOneMore(p: Pcm, steps: seq<Step>, step: Step)
    requires Lengths(p)
    ensures Run(p, steps + [step]) == Next(Run(p, steps), step)
    decreases |steps|
  {
    hide Next;
    if steps != [] {
      assert (steps + [step])[1..] == steps[1..] + [step];
      RunOneMore(Next(p, steps[0]), steps[1..], step);
    }
  }

  /** Chunks of whole samples, as far as they have arrived. */
  ghost predicate Even(p: Pcm) {
    && |p.pending| % 2 == 0 && |p.buffer| % 2 == 0 && Whole(p.at)
    && forall f :: f in p.frames ==> Whole(f.at)
  }

  lemma FrameKeepsWhole(p: Pcm)
    requires Even(p) && |p.buffer| == |p.at| >= FRAME
    ensures Even(FrameEncoded(p))
  {
    var rest := p.at[FRAME..];
    assert forall i :: 0 <= i < |rest| ==> rest[i] == p.at[i + FRAME];
  }

  lemma {:induction false} DrainedKeepsWhole(p: Pcm)
    requires Even(p) && |p.buffer| == |p.at|
    ensures Even(Drained(p))
    decreases |p.buffer|
  {
    hide Even;
    if |p.buffer| >= FRAME {
      FrameKeepsWhole(p);
      DrainedKeepsWhole(FrameEncoded(p));
    }
  }

  predicate WholeChunk(step: Step) {
    step.Enqueue? ==> |step.data| % 2 == 0
  }

  lemma EnqueueKeepsWhole(p: Pcm, data: Bytes)
    requires Even(p) && |data| % 2 == 0
    ensures Even(Enqueued(p, data))
  {
    hide Whole;
  }

  lemma TakeKeepsWhole(p: Pcm)
    requires Inv(p) && Even(p)
    ensures |p.pending| <= |p.stream| && Even(Taken(p))
  {
    TornExactly(p);
    hide Whole, Conserved, AllStamped, Captured;
  }

  lemma StepKeepsWhole(p: Pcm, step: Step)
    requires Between(p) && Lengths(p) && Even(p) && WholeChunk(step)
    ensures Even(Next(p, step))
  {
    hide Even, Conserved, Placed, AllStamped, Taken, Drained;
    match step
    case Enqueue(data) => EnqueueKeepsWhole(p, data);
    case Process =>
      InvLengths(p);
      TakeKeepsWhole(p);
      TakenKeepsInv(p);
      InvLengths(Taken(p));
      DrainedKeepsWhole(Taken(p));
  }

  /** When the microphone delivers whole samples, dropping never tears one. */
  lemma {:induction false} WholeChunksStayWhole(p: Pcm, steps: seq<Step>)
    requires Between(p) && Lengths(p) && Even(p) && forall step :: step in steps ==> WholeChunk(step)
    ensures Even(Run(p, steps))
    decreases |steps|
  {
    if steps != [] {
      StepKeepsInv(p, steps[0]);
      StepKeepsWhole(p, steps[0]);
      WholeChunksStayWhole(Next(p, steps[0]), steps[1..]);
    }
  }

  /** So no frame of such a run holds a torn sample. */
  lemma WholeChunksNeverTorn(steps: seq<Step>, f: Encoded)
    requires (forall step :: step in steps ==> WholeChunk(step)) && f in Run(Started(), steps).frames
    ensures !Torn(f)
  {
    StartInv();
    WholeChunksStayWhole(Started(), steps);
  }

  // ---- The worker ----

  class AudioEncodeWorker {
    var pendingPcm: Bytes
    var droppedSamples: nat
    var acceptingPcm: bool
    var processScheduled: bool
    var audioStarted: bool
    var audioPts: nat
    var audioTimestamp: nat
    var audioPcmBuffer: Bytes
    ghost var stream: Bytes
    ghost var at: seq<nat>
    ghost var applied: nat
    ghost var frames: seq<Encoded>

    ghost function View(): Pcm
      reads this
    {
      Pcm(pendingPcm, droppedSamples, audioPcmBuffer, audioPts, audioTimestamp, stream, at, applied, frames)
    }

    constructor ()
      ensures View() == Started() && !acceptingPcm && !audioStarted
    {
      pendingPcm, droppedSamples, acceptingPcm, processScheduled := [], 0, false, false;
      audioStarted, audioPts, audioTimestamp, audioPcmBuffer := false, 0, 0, [];
      stream, at, applied, frames := [], [], 0, [];
    }

    /** For the capture thread; `schedule` is whether a processing event has to be posted. */
    method EnqueueAudioPcmData(data: Bytes) returns (schedule: bool)
      modifies this`pendingPcm, this`droppedSamples, this`processScheduled, this`stream
      ensures View() == if acceptingPcm && data != [] then Enqueued(old(View()), data) else old(View())
      ensures schedule == (acceptingPcm && data != [] && !old(processScheduled))
      ensures schedule ==> processScheduled
    {
      if !acceptingPcm || data == [] {
        return false;
      }
      pendingPcm := pendingPcm + data;
      stream := stream + data;
      var overflow := |pendingPcm| as int - MAX_QUEUED as int;
      var droppedBytes := if overflow > 0 then overflow - overflow % 2 else 0;
      if droppedBytes > 0 {
        pendingPcm := pendingPcm[droppedBytes..];
        droppedSamples := droppedSamples + droppedBytes / 2;
      }
      schedule := !processScheduled;
      processScheduled := true;
    }

    /** Codec and packetizer are assumed to be set up without failure. */
    method Start()
      requires !audioStarted && pendingPcm == [] && droppedSamples == 0
      modifies this
      ensures View() == Started() && acceptingPcm && audioStarted
    {
      audioPts, audioTimestamp, audioPcmBuffer := 0, 0, [];
      stream, at, applied, frames := [], [], 0, [];
      audioStarted, acceptingPcm := true, true;
    }

    method Stop()
      modifies this
      ensures !acceptingPcm && !audioStarted && pendingPcm == [] && droppedSamples == 0 && !processScheduled
    {
      acceptingPcm, pendingPcm, droppedSamples, processScheduled := false, [], 0, false;
      if !audioStarted {
        return;
      }
      audioPts, audioTimestamp, audioPcmBuffer, audioStarted := 0, 0, [], false;
    }

    /** The frame is stamped before the timeline moves on; its packets carry the timestamp. */
    method EncodeAudioFrame()
      requires audioStarted && |audioPcmBuffer| == |at| >= FRAME
      modifies this`audioPcmBuffer, this`audioPts, this`audioTimestamp, this`at, this`frames
      ensures View() == FrameEncoded(old(View()))
      ensures |audioPcmBuffer| == |at| == |old(at)| - FRAME
    {
      frames := frames + [Encoded(audioPcmBuffer[..FRAME], audioPts, audioTimestamp, at[..FRAME])];
      audioPcmBuffer := audioPcmBuffer[FRAME..];
      at := at[FRAME..];
      audioPts := audioPts + FRAME_SAMPLES;
      audioTimestamp := (audioTimestamp + FRAME_SAMPLES) % TIMESTAMPS;
    }

    method ProcessPendingPcm()
      requires audioStarted && Between(View())
      modifies this
      ensures acceptingPcm == old(acceptingPcm) && audioStarted && !processScheduled
      ensures Between(View())
      ensures View() == if acceptingPcm then Processed(old(View())) else old(View())
    {
      processScheduled := false;
      if !acceptingPcm {
        return;
      }
      hide Conserved, Placed, AllStamped, TailFrom, Taken, FrameEncoded;
      InvLengths(View());
      TakenKeepsInv(View());
      DrainedKeepsInv(Taken(View()), |audioPcmBuffer|);
      ghost var done := Processed(View());
      TakeAll();
      while |audioPcmBuffer| >= FRAME
        invariant |audioPcmBuffer| == |at| && audioStarted && acceptingPcm && !processScheduled
        invariant Drained(View()) == done
        decreases |audioPcmBuffer|
      {
        EncodeAudioFrame();
      }
    }

    method TakeAll()
      requires |pendingPcm| <= |stream| && |audioPcmBuffer| == |at|
      modifies this`pendingPcm, this`droppedSamples, this`audioPts, this`audioTimestamp, this`audioPcmBuffer
      modifies this`at, this`applied
      ensures View() == Taken(old(View())) && |audioPcmBuffer| == |at|
    {
      at := at + Span(|stream| - |pendingPcm|, |pendingPcm|);
      audioPts := audioPts + droppedSamples;
      audioTimestamp := (audioTimestamp + droppedSamples) % TIMESTAMPS;
      audioPcmBuffer := audioPcmBuffer + pendingPcm;
      applied := applied + droppedSamples;
      pendingPcm, droppedSamples := [], 0;
    }
  }
}
