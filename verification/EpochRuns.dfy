/** The table of media signals (LogicDispatch.cpp, LogicSystem.cpp) against the epochs of the media
    connection: offers, answers that arrive late, and reconnections, in any interleaving. */
module EpochRuns {
  import opened Histories

  datatype Conn = Conn(id: nat)
  datatype SignalId = SignalId(id: nat)
  datatype Signal = Signal(conn: Conn, meeting: nat, epoch: nat)

  // ---- The table ----

  datatype Table = Table(signals: map<SignalId, Signal>, own: map<Conn, SignalId>, media: nat)

  predicate Owns(t: Table, c: Conn, id: SignalId) {
    c in t.own && t.own[c] == id
  }

  function Removed(t: Table, id: SignalId): Table {
    t.(signals := t.signals - {id})
  }

  function Disowned(t: Table, c: Conn, id: SignalId): Table {
    if Owns(t, c, id) then t.(own := t.own - {c}) else t
  }

  function Registered(t: Table, id: SignalId, c: Conn, meeting: nat): Table {
    t.(signals := t.signals[id := Signal(c, meeting, t.media)])
  }

  /** A connection of the media client began (`up`) or ended: unless it is old news, every association of
      an earlier one is forgotten, by the table and by the sessions. */
  predicate IsNews(t: Table, up: bool, epoch: nat) {
    epoch >= t.media && !(up && epoch == t.media)
  }

  function Moved(t: Table, epoch: nat): Table {
    Table(map[], map c | c in t.own && !(t.own[c] in t.signals && t.signals[t.own[c]].conn == c) :: t.own[c], epoch)
  }

  class SignalTable {
    var signals: map<SignalId, Signal>
    var own: map<Conn, SignalId>     // kept by the sessions
    var media: nat

    ghost function View(): Table
      reads this
    {
      Table(signals, own, media)
    }

    constructor ()
      ensures View() == Table(map[], map[], 0)
    {
      signals, own, media := map[], map[], 0;
    }

    method RegisterSignal(id: SignalId, c: Conn, meeting: nat) returns (epoch: nat)
      modifies this
      ensures View() == Registered(old(View()), id, c, meeting) && epoch == media
      ensures signals == old(signals)[id := Signal(c, meeting, media)] && own == old(own) && media == old(media)
    {
      signals := signals[id := Signal(c, meeting, media)];
      return media;
    }

    method FindSignal(id: SignalId) returns (found: Option<Signal>)
      ensures found == if id in signals then Some(signals[id]) else None
    {
      found := None;
      if id in signals {
        found := Some(signals[id]);
      }
    }

    method RemoveSignal(id: SignalId)
      modifies this
      ensures View() == Removed(old(View()), id)
    {
      signals := signals - {id};
    }

    /** Events about the connection; answers nothing to forward. */
    method AcceptLineEvent(up: bool, epoch: nat)
      modifies this
      ensures View() == if IsNews(old(View()), up, epoch) then Moved(old(View()), epoch) else old(View())
      ensures epoch < old(media) || (up && epoch == old(media)) ==>
        signals == old(signals) && own == old(own) && media == old(media)
      ensures epoch > old(media) || (!up && epoch == old(media)) ==> signals == map[] && media == epoch
      ensures epoch > old(media) || (!up && epoch == old(media)) ==>
        forall c :: c in old(own) && old(own)[c] in old(signals) && old(signals)[old(own)[c]].conn == c ==> c !in own
    {
      if epoch < media || (up && epoch == media) {
        return;
      }
      var todo := signals.Keys;
      while todo != {}
        invariant todo <= signals.Keys && signals == old(signals) && media == old(media)
        invariant own.Keys <= old(own).Keys && forall c :: c in own ==> own[c] == old(own)[c]
        invariant forall c :: c in old(own) ==>
          (c !in own <==> old(own)[c] in signals.Keys - todo && signals[old(own)[c]].conn == c)
        decreases |todo|
      {
        var id :| id in todo;
        var c := signals[id].conn;
        if c in own && own[c] == id {
          own := own - {c};
        }
        todo := todo - {id};
      }
      signals := map[];
      media := epoch;
      assert own == Moved(old(View()), epoch).own;
    }

    /** `current` is what the media client answers for the table's epoch. */
    method AcceptMessage(epoch: nat, current: bool) returns (accepted: bool)
      ensures accepted == (epoch == media && current)
    {
      return epoch == media && current;
    }
  }

  // ---- Runs ----

  datatype Event = Up(epoch: nat) | Down(epoch: nat) | Message(epoch: nat, id: SignalId)

  /** A response that waits in the queue of its meeting, with the association found for it. */
  datatype Response = Response(epoch: nat, id: SignalId, signal: Signal)

  datatype Delivery = Delivery(response: Response, clientEpoch: nat)

  datatype World = World(
    epoch: nat, up: bool, connected: bool,     // the media client
    control: seq<Event>,
    t: Table,
    nextId: nat,
    history: map<SignalId, Signal>,            // every association ever registered
    offering: map<Conn, SignalId>,             // offers between the allocation of an id and its registration
    waiting: set<Response>,
    checked: set<Response>,
    delivered: seq<Delivery>)

  datatype Step =
    | Connect
    | Invalidate
    | Disconnect
    | Receive(id: SignalId, refused: bool)
    | Control(refused: bool)
    | Allocate(c: Conn)
    | Register(c: Conn, meeting: nat)
    | Unregister(c: Conn)                      // the offer could not be sent, or the session leaves
    | CheckResponse(r: Response)
    | Deliver(r: Response)

  function Start(): World {
    World(0, false, false, [], Table(map[], map[], 0), 1, map[], map[], {}, {}, [])
  }

  predicate IsCurrent(w: World, epoch: nat) {
    w.connected && w.epoch == epoch
  }

  predicate Enabled(w: World, step: Step) {
    match step
    case Connect => !w.up
    case Invalidate => true
    case Disconnect => w.up
    case Receive(_, _) => w.up
    case Control(_) => w.control != []
    case Allocate(c) => c !in w.offering
    case Register(c, _) => c in w.offering
    case Unregister(c) => c in w.t.own
    case CheckResponse(r) => r in w.waiting
    case Deliver(r) => r in w.checked
  }

  function Controlled(w: World, e: Event, refused: bool): World {
    match e
    case Up(epoch) => if IsNews(w.t, true, epoch) then w.(t := Moved(w.t, epoch)) else w
    case Down(epoch) => if IsNews(w.t, false, epoch) then w.(t := Moved(w.t, epoch)) else w
    case Message(epoch, id) =>
      if epoch != w.t.media || !IsCurrent(w, epoch) || id !in w.t.signals || w.t.signals[id].epoch != epoch then w
      else if refused then w.(connected := false)
      else w.(waiting := w.waiting + {Response(epoch, id, w.t.signals[id])})
  }

  function Next(w: World, step: Step): World
    requires Enabled(w, step)
  {
    match step
    case Connect => w.(epoch := w.epoch + 1, up := true, connected := true, control := w.control + [Up(w.epoch + 1)])
    case Invalidate => w.(connected := false)
    case Disconnect => w.(up := false, connected := false, control := w.control + [Down(w.epoch)])
    case Receive(id, refused) =>
      if refused then w.(connected := false) else w.(control := w.control + [Message(w.epoch, id)])
    case Control(refused) => Controlled(w.(control := w.control[1..]), w.control[0], refused)
    case Allocate(c) =>
      var t := if c in w.t.own then Removed(w.t, w.t.own[c]) else w.t;
      w.(t := t.(own := t.own[c := SignalId(w.nextId)]), nextId := w.nextId + 1,
         offering := w.offering[c := SignalId(w.nextId)])
    case Register(c, meeting) =>
      var id := w.offering[c];
      w.(t := Registered(w.t, id, c, meeting), history := w.history[id := Signal(c, meeting, w.t.media)],
         offering := w.offering - {c})
    case Unregister(c) => w.(t := Disowned(Removed(w.t, w.t.own[c]), c, w.t.own[c]))
    case CheckResponse(r) =>
      var passes := r.epoch == w.t.media && IsCurrent(w, r.epoch)
        && r.id in w.t.signals && w.t.signals[r.id] == r.signal && Owns(w.t, r.signal.conn, r.id);
      w.(waiting := w.waiting - {r}, checked := if passes then w.checked + {r} else w.checked)
    case Deliver(r) =>
      w.(checked := w.checked - {r},
         delivered := if IsCurrent(w, r.signal.epoch) then w.delivered + [Delivery(r, w.epoch)] else w.delivered)
  }

  // ---- The invariant ----

  ghost predicate EpochsOk(w: World) {
    && w.t.media <= w.epoch
    && (forall e :: e in w.control ==> e.epoch <= w.epoch)
    && (w.t.media != w.epoch ==> Up(w.epoch) in w.control)
  }

  ghost predicate TableOk(w: World) {
    && (forall id :: id in w.t.signals ==>
          w.t.signals[id].epoch == w.t.media && id in w.history && w.history[id] == w.t.signals[id])
    && (forall id :: id in w.history ==> id.id < w.nextId)
    && (forall c :: c in w.offering ==> w.offering[c].id < w.nextId && w.offering[c] !in w.history)
    && (forall c, d :: c in w.offering && d in w.offering && c != d ==> w.offering[c] != w.offering[d])
  }

  predicate Genuine(w: World, r: Response) {
    r.id in w.history && w.history[r.id] == r.signal && r.signal.epoch == r.epoch
  }

  ghost predicate ResponsesOk(w: World) {
    && (forall r :: r in w.waiting || r in w.checked ==> Genuine(w, r))
    && (forall d :: d in w.delivered ==> Genuine(w, d.response) && d.clientEpoch == d.response.epoch)
  }

  ghost predicate Inv(w: World) {
    EpochsOk(w) && TableOk(w) && ResponsesOk(w)
  }

  lemma ControlKeepsEpochs(w: World, refused: bool)
    requires EpochsOk(w) && w.control != []
    ensures EpochsOk(Next(w, Control(refused)))
  {
    hide Moved;
    var first, rest := w.control[0], w.control[1..];
    assert w.control == [first] + rest && first in w.control;
    forall e ensures e in w.control <==> e == first || e in rest {
    }
    MovedEpoch(w.t, first.epoch);
  }

  lemma MovedEpoch(t: Table, epoch: nat)
    ensures Moved(t, epoch).media == epoch && Moved(t, epoch).signals == map[]
  {
  }

  lemma StepKeepsEpochs(w: World, step: Step)
    requires EpochsOk(w) && Enabled(w, step)
    ensures EpochsOk(Next(w, step))
  {
    if step.Control? { ControlKeepsEpochs(w, step.refused); }
    else { hide Moved, Owns, Controlled, Genuine; }
  }

  /** Handling an event changes the table at most to that of another epoch. */
  lemma ControlledFields(w: World, e: Event, refused: bool)
    ensures var v := Controlled(w, e, refused);
      && v.history == w.history && v.nextId == w.nextId && v.offering == w.offering
      && v.checked == w.checked && v.delivered == w.delivered
      && (v.t == w.t || v.t == Moved(w.t, e.epoch))
  {
    hide Moved, IsNews, IsCurrent;
  }

  lemma ControlKeepsTable(w: World, refused: bool)
    requires TableOk(w) && w.control != []
    ensures TableOk(Next(w, Control(refused)))
  {
    hide Moved, Controlled;
    ControlledFields(w.(control := w.control[1..]), w.control[0], refused);
    MovedEpoch(w.t, w.control[0].epoch);
  }

  lemma RegisterKeepsTable(w: World, c: Conn, meeting: nat)
    requires TableOk(w) && Enabled(w, Register(c, meeting))
    ensures TableOk(Next(w, Register(c, meeting)))
  {
    hide Moved, Owns, Controlled;
  }

  lemma StepKeepsTable(w: World, step: Step)
    requires TableOk(w) && Enabled(w, step)
    ensures TableOk(Next(w, step))
  {
    match step
    case Control(refused) => ControlKeepsTable(w, refused);
    case Register(c, meeting) => RegisterKeepsTable(w, c, meeting);
    case _ => hide Moved, Controlled, Genuine, Registered;
  }

  lemma HistoryGrows(w: World, step: Step, r: Response)
    requires TableOk(w) && Enabled(w, step) && Genuine(w, r)
    ensures Genuine(Next(w, step), r)
  {
    hide Moved, Owns;
  }

  lemma StepKeepsResponses(w: World, step: Step)
    requires TableOk(w) && ResponsesOk(w) && Enabled(w, step)
    ensures ResponsesOk(Next(w, step))
  {
    hide Moved, IsNews, Owns, Disowned, Registered, Removed;
    forall r | Genuine(w, r) ensures Genuine(Next(w, step), r) {
      HistoryGrows(w, step, r);
    }
    hide TableOk;
    if step.Control? { ControlledResponse(w, step.refused); }
  }

  lemma ControlledResponse(w: World, refused: bool)
    requires TableOk(w) && w.control != []
    ensures var v := Next(w, Control(refused));
      v.checked == w.checked && v.delivered == w.delivered
      && forall r :: r in v.waiting ==> r in w.waiting || Genuine(w, r)
  {
    ControlledFields(w.(control := w.control[1..]), w.control[0], refused);
    match w.control[0]
    case Message(epoch, id) =>
      hide Moved, IsNews;
    case _ => hide Moved, IsNews, Genuine, TableOk;
  }

  lemma StepKeepsInv(w: World, step: Step)
    requires Inv(w) && Enabled(w, step)
    ensures Inv(Next(w, step))
  {
    StepKeepsEpochs(w, step);
    StepKeepsTable(w, step);
    StepKeepsResponses(w, step);
    hide Next, EpochsOk, TableOk, ResponsesOk;
  }

  ghost predicate Feasible(w: World, steps: seq<Step>)
    decreases |steps|
  {
    steps == [] || (Enabled(w, steps[0]) && Feasible(Next(w, steps[0]), steps[1..]))
  }

  ghost function Run(w: World, steps: seq<Step>): World
    requires Feasible(w, steps)
    decreases |steps|
  {
    if steps == [] then w else Run(Next(w, steps[0]), steps[1..])
  }

  lemma {:induction false} RunKeepsInv(w: World, steps: seq<Step>)
    requires Inv(w) && Feasible(w, steps)
    ensures Inv(Run(w, steps))
    decreases |steps|
  {
    hide Inv, Next;
    if steps != [] {
      StepKeepsInv(w, steps[0]);
      RunKeepsInv(Next(w, steps[0]), steps[1..]);
    }
  }

  /** In every run: the table holds associations of its own epoch only, which is the client's as soon as the
      events about the connection have been handled; and a response that reached a session had been
      received under the very epoch under which that session's offer was registered and under which the
      client was connected when it was handed over. */
  lemma NoResponseOfAnOldEpoch(steps: seq<Step>, id: SignalId, d: Delivery)
    requires Feasible(Start(), steps)
    ensures var w := Run(Start(), steps);
      && (id in w.t.signals ==> w.t.signals[id].epoch == w.t.media)
      && w.t.media <= w.epoch && (w.control == [] ==> w.t.media == w.epoch)
      && (d in w.delivered ==>
            && d.response.epoch == d.clientEpoch
            && d.response.id in w.history && w.history[d.response.id] == d.response.signal
            && d.response.signal.epoch == d.response.epoch)
  {
    RunKeepsInv(Start(), steps);
  }

  /** The session's own signal, registered, under the epoch that is connected. */
  predicate IsOwn(w: World, r: Response) {
    && r.id in w.t.signals && w.t.signals[r.id] == r.signal
    && r.signal.conn in w.t.own && w.t.own[r.signal.conn] == r.id
    && r.epoch == w.t.media && w.epoch == r.epoch && w.connected
  }

  /** A response passes the check exactly when it is for the signal that its session has now. */
  lemma CheckPasses(w: World, r: Response)
    requires r in w.waiting
    ensures r in Next(w, CheckResponse(r)).checked <==> r in w.checked || IsOwn(w, r)
    ensures r !in Next(w, CheckResponse(r)).waiting
  {
  }

  /** At some moment up to the end of the run, or before it, the response was for its session's own signal. */
  ghost predicate WasOwn(w: World, steps: seq<Step>, r: Response)
    requires Feasible(w, steps)
  {
    exists i :: 0 <= i <= |steps| && Feasible(w, steps[..i]) && IsOwn(Run(w, steps[..i]), r)
  }

  lemma {:induction false} RunSplits(w: World, steps: seq<Step>)
    requires Feasible(w, steps) && steps != []
    ensures var n := |steps| - 1;
      Feasible(w, steps[..n]) && Enabled(Run(w, steps[..n]), steps[n])
      && Run(w, steps) == Next(Run(w, steps[..n]), steps[n])
    decreases |steps|
  {
    var n := |steps| - 1;
    hide Next, Enabled;
    if n > 0 {
      assert steps[1..][..n - 1] == steps[..n][1..] && steps[..n][0] == steps[0];
      RunSplits(Next(w, steps[0]), steps[1..]);
    } else {
      assert steps[..0] == [] && steps[1..] == [];
    }
  }

  lemma WasOwnBefore(w: World, steps: seq<Step>, r: Response)
    requires Feasible(w, steps) && steps != [] && Feasible(w, steps[..|steps| - 1])
    requires WasOwn(w, steps[..|steps| - 1], r)
    ensures WasOwn(w, steps, r)
  {
    var init := steps[..|steps| - 1];
    var i :| 0 <= i <= |init| && Feasible(w, init[..i]) && IsOwn(Run(w, init[..i]), r);
    assert init[..i] == steps[..i];
  }

  lemma CheckedNow(w: World, step: Step, r: Response)
    requires Enabled(w, step)
    requires r in Next(w, step).checked || exists d :: d in Next(w, step).delivered && d.response == r
    ensures r in w.checked || (exists d :: d in w.delivered && d.response == r) || IsOwn(w, r)
  {
    hide Moved, IsNews, Disowned, Registered, Removed;
    if step.Control? {
      ControlledFields(w.(control := w.control[1..]), w.control[0], step.refused);
      hide Controlled;
    }
  }

  /** In every run, whatever has been handed over to a session was, when it was checked, for the signal number
      that this session had then, registered under the epoch connected then. */
  lemma {:induction false} DeliveredWasOwn(steps: seq<Step>, r: Response)
    requires Feasible(Start(), steps)
    requires var w := Run(Start(), steps); r in w.checked || exists d :: d in w.delivered && d.response == r
    ensures WasOwn(Start(), steps, r)
    decreases |steps|
  {
    if steps != [] {
      var n := |steps| - 1;
      RunSplits(Start(), steps);
      var w := Run(Start(), steps[..n]);
      hide Run, Feasible, Next, Enabled;
      CheckedNow(w, steps[n], r);
      if r in w.checked || exists d :: d in w.delivered && d.response == r {
        DeliveredWasOwn(steps[..n], r);
        WasOwnBefore(Start(), steps, r);
      }
    }
  }

  /** A new offer of a session replaces its signal: the earlier association is gone from the table. */
  lemma AllocationReplaces(w: World, c: Conn)
    requires Inv(w) && Enabled(w, Allocate(c))
    ensures var next := Next(w, Allocate(c));
      && c in next.t.own && next.t.own[c].id == w.nextId && next.nextId == w.nextId + 1
      && next.t.own[c] !in next.t.signals && next.t.own[c] !in next.history
      && (c in w.t.own ==> w.t.own[c] !in next.t.signals)
      && forall id :: id in next.t.signals ==> id in w.t.signals && next.t.signals[id] == w.t.signals[id]
  {
    assert TableOk(w);
    hide EpochsOk, ResponsesOk;
  }

  /** What is handed over now belongs to the connection that is up now. */
  lemma DeliveredIsCurrent(w: World, r: Response)
    requires Inv(w) && Enabled(w, Deliver(r)) && Next(w, Deliver(r)).delivered != w.delivered
    ensures r.epoch == w.epoch && w.connected
    ensures r.id in w.history && w.history[r.id].conn == r.signal.conn
  {
    assert Genuine(w, r);
  }

  // ---- What gets through ----

  /** What the news at the front of the control queue does: news of a later connection, or of the end of this one,
      clear the table, older news nothing; a message is queued for its session exactly if it came over the
      connection that is up, for a signal registered under it, and a refusal gives that connection up. */
  lemma NewsMeans(w: World, refused: bool)
    requires w.control != []
    ensures var e, v := w.control[0], Next(w, Control(refused));
      && v.epoch == w.epoch && v.up == w.up && v.control == w.control[1..]
      && (match e
          case Up(epoch) =>
            && v.connected == w.connected && v.waiting == w.waiting
            && (epoch <= w.t.media ==> v.t == w.t)
            && (epoch > w.t.media ==> v.t.media == epoch && v.t.signals == map[])
          case Down(epoch) =>
            && v.connected == w.connected && v.waiting == w.waiting
            && (epoch < w.t.media ==> v.t == w.t)
            && (epoch >= w.t.media ==> v.t.media == epoch && v.t.signals == map[])
          case Message(epoch, id) =>
            var known := w.connected && w.epoch == epoch == w.t.media &&
              id in w.t.signals && w.t.signals[id].epoch == epoch;
            && v.t == w.t && v.connected == (w.connected && !(known && refused))
            && v.waiting == w.waiting + if known && !refused then {Response(epoch, id, w.t.signals[id])} else {})
  {
  }

  /** A session that is cleared loses exactly its own number. */
  lemma ClearedOwn(w: World, refused: bool, c: Conn)
    requires w.control != [] && !w.control[0].Message? && Next(w, Control(refused)).t != w.t
    ensures var v := Next(w, Control(refused));
      && (c in v.t.own <==> c in w.t.own && !(w.t.own[c] in w.t.signals && w.t.signals[w.t.own[c]].conn == c))
      && (c in v.t.own ==> v.t.own[c] == w.t.own[c])
  {
    ControlledFields(w.(control := w.control[1..]), w.control[0], refused);
    MovedOwn(w.t, w.control[0].epoch, c);
    hide Controlled, Moved;
  }

  lemma MovedOwn(t: Table, epoch: nat, c: Conn)
    ensures var own := Moved(t, epoch).own;
      && (c in own <==> c in t.own && !(t.own[c] in t.signals && t.signals[t.own[c]].conn == c))
      && (c in own ==> own[c] == t.own[c])
  {
  }

  /** Giving a signal up takes it out of the table and from its session. */
  lemma GivenUp(w: World, c: Conn)
    requires c in w.t.own
    ensures var v := Next(w, Unregister(c)).t;
      && w.t.own[c] !in v.signals && c !in v.own && v.media == w.t.media
      && (forall id :: id != w.t.own[c] ==> (id in v.signals <==> id in w.t.signals))
      && forall d :: d != c ==> (d in v.own <==> d in w.t.own)
  {
  }

  lemma {:induction false} RunOneMore(w: World, steps: seq<Step>, step: Step)
    requires Feasible(w, steps) && Enabled(Run(w, steps), step)
    ensures Feasible(w, steps + [step]) && Run(w, steps + [step]) == Next(Run(w, steps), step)
    decreases |steps|
  {
    hide Enabled, Next;
    if steps == [] {
      assert steps + [step] == [step];
      assert Feasible(Next(w, step), []);
    } else {
      RunOneMore(Next(w, steps[0]), steps[1..], step);
      assert (steps + [step])[0] == steps[0] && (steps + [step])[1..] == steps[1..] + [step];
    }
  }

  /** Whatever went before: over a connection that begins, an offer is answered. */
  lemma OfferIsAnswered(w: World, c: Conn, meeting: nat)
    requires Inv(w) && !w.up && w.control == [] && c !in w.offering
    ensures var id, epoch := SignalId(w.nextId), w.epoch + 1;
      var r := Response(epoch, id, Signal(c, meeting, epoch));
      var steps := [Connect, Control(false), Allocate(c), Register(c, meeting), Receive(id, false), Control(false),
                    CheckResponse(r), Deliver(r)];
      Feasible(w, steps) && Run(w, steps).delivered == w.delivered + [Delivery(r, epoch)]
  {
    var id, epoch := SignalId(w.nextId), w.epoch + 1;
    var r := Response(epoch, id, Signal(c, meeting, epoch));
    var steps := [Connect, Control(false), Allocate(c), Register(c, meeting), Receive(id, false), Control(false),
                  CheckResponse(r), Deliver(r)];
    BeginsToTransmit(w, c, meeting);
    assert steps[..5] == [Connect, Control(false), Allocate(c), Register(c, meeting), Receive(id, false)];
    var v := Run(w, steps[..5]);
    Answered(v, r);
    hide Next, Inv, Enabled;
    assert steps[..6] == steps[..5] + [Control(false)];
    RunOneMore(w, steps[..5], Control(false));
    assert steps[..7] == steps[..6] + [CheckResponse(r)];
    RunOneMore(w, steps[..6], CheckResponse(r));
    assert steps == steps[..7] + [Deliver(r)];
    RunOneMore(w, steps[..7], Deliver(r));
  }

  lemma Answered(v: World, r: Response)
    requires v.control == [Message(r.epoch, r.id)] && IsOwn(v, r) && r.signal.epoch == r.epoch
    ensures Enabled(v, Control(false)) && Enabled(Next(v, Control(false)), CheckResponse(r))
    ensures var x := Next(Next(v, Control(false)), CheckResponse(r));
      Enabled(x, Deliver(r)) && Next(x, Deliver(r)).delivered == v.delivered + [Delivery(r, r.epoch)]
  {
    assert v.control[1..] == [];
  }

  lemma BeginsToTransmit(w: World, c: Conn, meeting: nat)
    requires Inv(w) && !w.up && w.control == [] && c !in w.offering
    ensures var id, epoch := SignalId(w.nextId), w.epoch + 1;
      var steps := [Connect, Control(false), Allocate(c), Register(c, meeting), Receive(id, false)];
      Feasible(w, steps) && var v := Run(w, steps);
      v.control == [Message(epoch, id)] && IsOwn(v, Response(epoch, id, Signal(c, meeting, epoch))) &&
      v.delivered == w.delivered
  {
    var id := SignalId(w.nextId);
    var steps := [Connect, Control(false), Allocate(c), Register(c, meeting), Receive(id, false)];
    Transmits(w, c, meeting);
    hide Next, Inv, Enabled, IsOwn;
    assert steps[..0] == [];
    assert steps[..1] == steps[..0] + [steps[0]];
    RunOneMore(w, steps[..0], steps[0]);
    assert steps[..2] == steps[..1] + [steps[1]];
    RunOneMore(w, steps[..1], steps[1]);
    assert steps[..3] == steps[..2] + [steps[2]];
    RunOneMore(w, steps[..2], steps[2]);
    assert steps[..4] == steps[..3] + [steps[3]];
    RunOneMore(w, steps[..3], steps[3]);
    assert steps == steps[..4] + [steps[4]];
    RunOneMore(w, steps[..4], steps[4]);
  }

  lemma Transmits(w: World, c: Conn, meeting: nat)
    requires Inv(w) && !w.up && w.control == [] && c !in w.offering
    ensures var id, epoch := SignalId(w.nextId), w.epoch + 1;
      && Enabled(w, Connect) && var w1 := Next(w, Connect);
      && Enabled(w1, Control(false)) && var w2 := Next(w1, Control(false));
      && Enabled(w2, Allocate(c)) && var w3 := Next(w2, Allocate(c));
      && Enabled(w3, Register(c, meeting)) && var w4 := Next(w3, Register(c, meeting));
      && Enabled(w4, Receive(id, false)) && var v := Next(w4, Receive(id, false));
      && v.control == [Message(epoch, id)] && IsOwn(v, Response(epoch, id, Signal(c, meeting, epoch)))
      && v.delivered == w.delivered
  {
    Reconnects(w);
    var w2 := Next(Next(w, Connect), Control(false));
    hide Moved, Controlled;
    hide Inv, IsNews;
    var w4 := Next(Next(w2, Allocate(c)), Register(c, meeting));
    assert w4.t.own[c] == SignalId(w.nextId) && w4.t.signals[SignalId(w.nextId)] == Signal(c, meeting, w.epoch + 1);
  }

  lemma Reconnects(w: World)
    requires EpochsOk(w) && !w.up && w.control == []
    ensures Enabled(w, Connect) && Enabled(Next(w, Connect), Control(false))
    ensures var v := Next(Next(w, Connect), Control(false));
      v.control == [] && v.t.media == v.epoch == w.epoch + 1 && v.t.signals == map[] && v.up && v.connected &&
      v.delivered == w.delivered && v.offering == w.offering && v.nextId == w.nextId
  {
    var w1 := Next(w, Connect);
    assert w1.control == [Up(w.epoch + 1)] && w1.control[1..] == [];
  }
}
