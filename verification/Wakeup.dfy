/**
 Waking the one I/O thread of the realtime server (IoWakeup.cpp) and its loop over connections
 (CServer.cpp, Session.cpp): business threads leave frames and close requests behind, the loop must
 not go to sleep on any of them.
 */
module Wakeup {
  import opened Histories

  datatype Token = Token(id: nat)

  const BATCH: nat := 64

  /** `readable` is the event descriptor: written when a token is added, read by Take. */
  datatype Signal = Signal(pending: set<Token>, ready: seq<Token>, stopping: bool, readable: bool)

  function Notified(s: Signal, t: Token): Signal {
    if s.stopping || t in s.pending then s
    else s.(pending := s.pending + {t}, ready := s.ready + [t], readable := true)
  }

  function TakeCount(s: Signal): nat {
    if |s.ready| < BATCH then |s.ready| else BATCH
  }

  function SetOf<T>(s: seq<T>): set<T> {
    set x | x in s
  }

  function Taken(s: Signal): Signal {
    var n := TakeCount(s);
    s.(pending := s.pending - SetOf(s.ready[..n]), ready := s.ready[n..], readable := n < |s.ready|)
  }

  ghost predicate Sound(s: Signal) {
    NoDuplicates(s.ready) && s.pending == SetOf(s.ready) && (s.ready != [] ==> s.readable)
  }

  lemma NotifiedKeepsSound(s: Signal, t: Token)
    requires Sound(s)
    ensures Sound(Notified(s, t))
    ensures !s.stopping ==> t in Notified(s, t).ready
    ensures forall u :: u in s.ready ==> u in Notified(s, t).ready
  {
    assert t in s.pending ==> t in s.ready;
    assert SetOf(s.ready + [t]) == SetOf(s.ready) + {t};
  }

  lemma TakenKeepsSound(s: Signal)
    requires Sound(s)
    ensures Sound(Taken(s))
    ensures forall u :: u in s.ready ==> u in s.ready[..TakeCount(s)] || u in Taken(s).ready
  {
    var n := TakeCount(s);
    assert s.ready == s.ready[..n] + s.ready[n..];
    forall u | u in s.ready[n..] ensures u !in s.ready[..n] {
      var j :| n <= j < |s.ready| && s.ready[j] == u;
    }
    assert SetOf(s.ready) == SetOf(s.ready[..n]) + SetOf(s.ready[n..]);
    assert s.pending - SetOf(s.ready[..n]) == SetOf(s.ready[n..]);
  }

  class IoWakeup {
    var pending: set<Token>
    var ready: seq<Token>
    var stopping: bool
    var readable: bool

    ghost function View(): Signal
      reads this
    {
      Signal(pending, ready, stopping, readable)
    }

    constructor ()
      ensures View() == Signal({}, [], false, false)
    {
      pending, ready, stopping, readable := {}, [], false, false;
    }

    method Notify(t: Token) returns (accepted: bool)
      requires Sound(View())
      modifies this
      ensures accepted == !old(stopping) && View() == Notified(old(View()), t)
      ensures accepted ==> t in ready && readable && pending == old(pending) + {t}
      ensures ready == if accepted && t !in old(ready) then old(ready) + [t] else old(ready)
      ensures !accepted ==> pending == old(pending) && readable == old(readable)
    {
      if stopping {
        return false;
      }
      if t !in pending {
        pending := pending + {t};
        ready := ready + [t];
        readable := true;
      }
      return true;
    }

    method Take() returns (batch: seq<Token>)
      requires Sound(View())
      modifies this
      ensures batch == old(ready)[..TakeCount(old(View()))] && View() == Taken(old(View()))
      ensures batch + ready == old(ready) && (|batch| == 64 || ready == [])
      ensures |batch| <= 64 && readable == (ready != [])
      ensures forall t :: t in pending <==> t in ready
    {
      readable := false;
      batch := [];
      while ready != [] && |batch| < BATCH
        invariant |batch| <= BATCH && |batch| <= |old(ready)|
        invariant batch == old(ready)[..|batch|] && ready == old(ready)[|batch|..]
        invariant pending == old(pending) - SetOf(batch)
        invariant stopping == old(stopping) && !readable
        decreases |ready|
      {
        assert SetOf(batch + [ready[0]]) == SetOf(batch) + {ready[0]};
        batch := batch + [ready[0]];
        pending := pending - {ready[0]};
        ready := ready[1..];
      }
      if ready != [] {
        readable := true;
      }
    }

    method RequestStop()
      modifies this
      ensures stopping && pending == old(pending) && ready == old(ready)
      ensures readable == (old(readable) || !old(stopping))
    {
      if !stopping {
        stopping := true;
        readable := true;
      }
    }

    method Close()
      modifies this
      ensures View() == Signal({}, [], true, old(readable))
    {
      stopping := true;
      pending := {};
      ready := [];
    }
  }

  // ---- The loop ----

  /** A registered connection: frames not yet written, a request to close it, and whether the loop is
      told when its socket becomes writable. */
  datatype Link = Link(frames: nat, closing: bool, armed: bool)

  /** What the loop is doing; `todo` are tokens it has taken and not come to yet. */
  datatype Phase =
    | Waiting
    | Batch(todo: seq<Token>)
    | Handling(t: Token, todo: seq<Token>)                // writing, up to the look at what is left
    | Looked(t: Token, more: bool, todo: seq<Token>)      // before the change of the interest

  datatype World = World(
    s: Signal,
    links: map<Token, Link>,
    phase: Phase,
    notified: seq<Token>,     // tokens in the order in which they entered the ready queue
    taken: seq<Token>)

  datatype Step =
    | Accept(t: Token)
    | Send(t: Token)
    | RequestClose(t: Token)
    | NotifyOther(t: Token)   // the media connection uses the same queue
    | Wake
    | SocketEvent(t: Token)
    | NextToken
    | FrameWritten
    | Look
    | SetInterest
    | CloseClient
    | Stop

  function Start(): World {
    World(Signal({}, [], false, false), map[], Waiting, [], [])
  }

  predicate Enabled(w: World, step: Step) {
    match step
    case Accept(t) => t !in w.links && w.phase.Waiting?
    case Send(t) => t in w.links
    case RequestClose(t) => t in w.links
    case NotifyOther(t) => true
    case Wake => w.phase.Waiting? && w.s.readable
    case SocketEvent(t) => w.phase.Waiting? && t in w.links
    case NextToken => w.phase.Batch?
    case FrameWritten => w.phase.Handling? && w.phase.t in w.links && w.links[w.phase.t].frames > 0
    case Look => w.phase.Handling?
    case SetInterest => w.phase.Looked?
    case CloseClient => w.phase.Handling? || w.phase.Looked?
    case Stop => true
  }

  predicate Needs(link: Link) {
    link.frames > 0 || link.closing
  }

  function Notify(w: World, t: Token): World {
    w.(s := Notified(w.s, t),
       notified := if w.s.stopping || t in w.s.pending then w.notified else w.notified + [t])
  }

  function SetLink(w: World, t: Token, link: Link): World {
    w.(links := w.links[t := link])
  }

  function Resumed(todo: seq<Token>): Phase {
    if todo == [] then Waiting else Batch(todo)
  }

  function Next(w: World, step: Step): World
    requires Enabled(w, step)
  {
    match step
    case Accept(t) => SetLink(w, t, Link(0, false, false))
    case Send(t) =>
      // A frame beyond the limits turns into a close request, see SendQueue and Sessions.
      if w.links[t].closing then w
      else if w.s.stopping then SetLink(w, t, w.links[t].(frames := w.links[t].frames + 1, closing := true))
      else Notify(SetLink(w, t, w.links[t].(frames := w.links[t].frames + 1)), t)
    case RequestClose(t) => Notify(SetLink(w, t, w.links[t].(closing := true)), t)
    case NotifyOther(t) => Notify(w, t)
    case Wake =>
      var batch := w.s.ready[..TakeCount(w.s)];
      w.(s := Taken(w.s), phase := Resumed(batch), taken := w.taken + batch)
    case SocketEvent(t) => w.(phase := Handling(t, []))
    case NextToken =>
      if w.phase.todo == [] || w.s.stopping then w.(phase := Waiting)
      else
        var t, rest := w.phase.todo[0], w.phase.todo[1..];
        w.(phase := if t in w.links then Handling(t, rest) else Resumed(rest))
    case FrameWritten =>
      var t := w.phase.t;
      SetLink(w, t, w.links[t].(frames := w.links[t].frames - 1))
    case Look =>
      var t := w.phase.t;
      w.(phase := Looked(t, t in w.links && Needs(w.links[t]), w.phase.todo))
    case SetInterest =>
      var t := w.phase.t;
      (if t in w.links then SetLink(w, t, w.links[t].(armed := w.phase.more)) else w)
        .(phase := Resumed(w.phase.todo))
    case CloseClient => w.(links := w.links - {w.phase.t}, phase := Resumed(w.phase.todo))
    case Stop => w.(s := w.s.(stopping := true, readable := true))
  }

  // ---- The invariant ----

  predicate Remembered(phase: Phase, t: Token) {
    match phase
    case Waiting => false
    case Batch(todo) => t in todo
    case Handling(u, todo) => t == u || t in todo
    case Looked(u, more, todo) => (t == u && more) || t in todo
  }

  /** A connection that needs attention is not forgotten. */
  predicate NotLost(w: World, t: Token) {
    t in w.links && Needs(w.links[t]) ==>
      t in w.s.ready || Remembered(w.phase, t) || (w.links[t].armed && !(w.phase.Looked? && w.phase.t == t))
  }

  ghost predicate Inv(w: World) {
    && Sound(w.s)
    && w.notified == w.taken + w.s.ready
    && (!w.s.stopping ==> forall t :: NotLost(w, t))
  }

  lemma StepKeepsSound(w: World, step: Step)
    requires Inv(w) && Enabled(w, step)
    ensures Sound(Next(w, step).s) && Next(w, step).notified == Next(w, step).taken + Next(w, step).s.ready
  {
    hide NotLost;
    match step
    case Send(t) => NotifiedKeepsSound(w.s, t);
    case RequestClose(t) => NotifiedKeepsSound(w.s, t);
    case NotifyOther(t) => NotifiedKeepsSound(w.s, t);
    case Wake =>
      TakenKeepsSound(w.s);
      assert w.s.ready == w.s.ready[..TakeCount(w.s)] + Taken(w.s).ready;
    case _ =>
  }

  lemma StepKeepsNotLost(w: World, step: Step, t: Token)
    requires Inv(w) && Enabled(w, step) && !Next(w, step).s.stopping
    ensures NotLost(Next(w, step), t)
  {
    assert NotLost(w, t);
    match step
    case Send(u) => NotifiedKeepsSound(w.s, u);
    case RequestClose(u) => NotifiedKeepsSound(w.s, u);
    case NotifyOther(u) => NotifiedKeepsSound(w.s, u);
    case Wake => TakenKeepsSound(w.s);
    case NextToken =>
      if w.phase.todo != [] { assert w.phase.todo == [w.phase.todo[0]] + w.phase.todo[1..]; }
    case _ =>
  }

  lemma StepKeepsInv(w: World, step: Step)
    requires Inv(w) && Enabled(w, step)
    ensures Inv(Next(w, step))
  {
    hide Sound, NotLost;
    StepKeepsSound(w, step);
    forall t | !Next(w, step).s.stopping ensures NotLost(Next(w, step), t) {
      StepKeepsNotLost(w, step, t);
    }
  }

  // ---- Runs ----

  ghost predicate Feasible(w: World, steps: seq<Step>)
    decreases |steps|
  {
    steps == [] || (Enabled(w, steps[0]) && Feasible(Next(w, steps[0]), steps[1..]))
  }

  ghost function Run(w: World, steps: seq<Step>): World
    requires Feasible(w, steps)
    decreases |steps|
  {
    if steps == [] then w else Run(Next(w, steps[0]), steps[1..])
  }

  lemma {:induction false} RunKeepsInv(w: World, steps: seq<Step>)
    requires Inv(w) && Feasible(w, steps)
    ensures Inv(Run(w, steps))
    decreases |steps|
  {
    hide Inv, Next;
    if steps != [] {
      StepKeepsInv(w, steps[0]);
      RunKeepsInv(Next(w, steps[0]), steps[1..]);
    }
  }

  /** Frames are on a connection exactly between their acceptance and their being written; a request to close it
      stays; and it is only removed by the loop, while it is being handled. */
  lemma LinkChanges(w: World, step: Step, t: Token)
    requires Enabled(w, step) && t in w.links
    ensures var v := Next(w, step);
      && (t !in v.links <==> step.CloseClient? && w.phase.t == t)
      && (t in v.links ==>
            && v.links[t].frames == w.links[t].frames
                 + (if step == Send(t) && !w.links[t].closing then 1 else 0)
                 - (if step.FrameWritten? && w.phase.t == t then 1 else 0)
            && (v.links[t].closing <==>
                  w.links[t].closing || step == RequestClose(t) || (step == Send(t) && w.s.stopping))
            && (w.links[t].armed && !v.links[t].armed ==> step.SetInterest? && w.phase.t == t && !w.phase.more))
  {
  }

  /** What each step may always do: connections accept frames and close requests, tokens are notified, the loop is
      woken exactly if the descriptor is readable, takes its tokens in turn, and handles those still connected. */
  lemma LoopGoesOn(w: World, t: Token)
    requires Sound(w.s)
    ensures t in w.links ==> Enabled(w, Send(t)) && Enabled(w, RequestClose(t))
    ensures w.phase.Waiting? ==> (Enabled(w, Wake) <==> w.s.readable)
    ensures w.phase.Waiting? && w.s.readable && w.s.ready != [] ==>
      Next(w, Wake).phase == Batch(w.s.ready[..if |w.s.ready| < 64 then |w.s.ready| else 64])
    ensures w.phase.Batch? && w.phase.todo != [] && w.phase.todo[0] in w.links && !w.s.stopping ==>
      Next(w, NextToken).phase == Handling(w.phase.todo[0], w.phase.todo[1..])
    ensures w.phase.Handling? ==>
      var v := Next(w, Look);
      v.phase.more <==> w.phase.t in w.links && (w.links[w.phase.t].frames > 0 || w.links[w.phase.t].closing)
    ensures w.phase.Looked? && w.phase.t in w.links ==>
      Next(w, SetInterest).links[w.phase.t].armed == w.phase.more
  {
  }

  /** In every run: while the server is not stopping, a connection with frames to write or a request to
      close it is queued, taken, being handled, or its socket is watched; so when the loop waits, it is
      woken for it. The queue holds each token once and hands tokens over in the order of their
      notification. */
  lemma NoLostWakeup(steps: seq<Step>, t: Token)
    requires Feasible(Start(), steps)
    ensures var w := Run(Start(), steps);
      && NoDuplicates(w.s.ready) && w.s.pending == SetOf(w.s.ready)
      && w.taken <= w.notified && w.notified[|w.taken|..] == w.s.ready
      && (!w.s.stopping && t in w.links && (w.links[t].frames > 0 || w.links[t].closing) ==>
            t in w.s.ready || w.links[t].armed ||
            match w.phase
            case Waiting => false
            case Batch(todo) => t in todo
            case Handling(u, todo) => t == u || t in todo
            case Looked(u, more, todo) => (t == u && more) || t in todo)
      && (!w.s.stopping && w.phase.Waiting? && t in w.links && (w.links[t].frames > 0 || w.links[t].closing) ==>
            w.s.readable || w.links[t].armed)
  {
    RunKeepsInv(Start(), steps);
    var w := Run(Start(), steps);
    if !w.s.stopping { assert NotLost(w, t); }
  }
}
