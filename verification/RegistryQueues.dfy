/**
 The registry with the queues of its rooms inside: every room object has a serial command queue of its own
 (BusinessScheduler.cpp), and its strand finds it idle and retires it (LogicDispatch.cpp). All runs of this
 machine are runs of the registry, in which a room is a list of unfinished commands.
 */
module RegistryQueues {
  import opened Histories
  import S = Scheduler
  import Q = QueueRuns
  import R = Registry

  datatype Room = Room(meeting: R.Meeting, run: Q.World, occupied: bool, retiring: bool)

  datatype World = World(
    capacity: nat,                        // of each queue
    registered: map<R.Meeting, R.Context>,
    rooms: map<R.Context, Room>,
    issued: nat,
    accepted: seq<(R.Meeting, R.Command)>,
    started: seq<(R.Meeting, R.Command)>,
    finished: seq<(R.Meeting, R.Command)>)

  datatype Step =
    | Submit(m: R.Meeting, e: S.Entry, fits: bool)      // `fits`: the limits of the whole process allow it
    | Work(c: R.Context, step: Q.Step)                  // any other step of a room's queue
    | Occupy(c: R.Context, occupied: bool)              // the running command adds or removes members
    | FindIdle(c: R.Context)                            // on the strand, in the job after a command
    | Retire(c: R.Context)                              // then, under the lock of the registry

  function Start(capacity: nat): World {
    World(capacity, map[], map[], 0, [], [], [])
  }

  function Cmd(e: S.Entry): R.Command {
    R.Command(e.id)
  }

  predicate Pending(room: Room) {
    room.run.q.count.pending != 0
  }

  ghost predicate Enabled(w: World, step: Step) {
    match step
    case Submit(_, _, _) => true
    case Work(c, step) =>
      && c in w.rooms && !step.Submit? && Q.Enabled(w.rooms[c].run, step)
      && (w.rooms[c].retiring ==> step.Deliver?)
    case Occupy(c, _) => c in w.rooms && w.rooms[c].run.q.activity.Running?
    case FindIdle(c) =>
      && c in w.rooms && Q.Enabled(w.rooms[c].run, Q.RunJob) && w.rooms[c].run.q.strand[0].Settle?
      && !Pending(w.rooms[c]) && !w.rooms[c].occupied && !w.rooms[c].retiring
    case Retire(c) => c in w.rooms && w.rooms[c].retiring
  }

  function SetRoom(w: World, c: R.Context, room: Room): World {
    w.(rooms := w.rooms[c := room])
  }

  /** The room a command goes to, registered already or new. */
  function Target(w: World, m: R.Meeting): Room
    requires m in w.registered ==> w.registered[m] in w.rooms
  {
    if m in w.registered then w.rooms[w.registered[m]] else Room(m, Q.Start(w.capacity), false, false)
  }

  predicate Accepts(w: World, m: R.Meeting, e: S.Entry, fits: bool)
    requires m in w.registered ==> w.registered[m] in w.rooms
  {
    fits && Q.Enabled(Target(w, m).run, Q.Submit(e))
  }

  ghost predicate Rooted(w: World) {
    forall m :: m in w.registered ==> w.registered[m] in w.rooms
  }

  ghost function Next(w: World, step: Step): World
    requires Rooted(w) && Enabled(w, step)
  {
    match step
    case Submit(m, e, fits) =>
      if !Accepts(w, m, e, fits) then w
      else
        var room := Target(w, m).(run := Q.Next(Target(w, m).run, Q.Submit(e)));
        var c := if m in w.registered then w.registered[m] else R.Context(w.issued);
        w.(registered := w.registered[m := c], rooms := w.rooms[c := room],
           issued := if m in w.registered then w.issued else w.issued + 1, accepted := w.accepted + [(m, Cmd(e))])
    case Work(c, step) =>
      var room := w.rooms[c];
      var next := SetRoom(w, c, room.(run := Q.Next(room.run, step)));
      if step.StartOp? then next.(started := w.started + [(room.meeting, Cmd(room.run.q.activity.entry))])
      else if step.EndOp? then next.(finished := w.finished + [(room.meeting, Cmd(room.run.q.activity.entry))])
      else next
    case Occupy(c, occupied) => SetRoom(w, c, w.rooms[c].(occupied := occupied))
    case FindIdle(c) => SetRoom(w, c, w.rooms[c].(retiring := true))
    case Retire(c) =>
      var room := w.rooms[c];
      SetRoom(w, c, room.(retiring := false))
        .(registered := if room.meeting in w.registered && w.registered[room.meeting] == c && !Pending(room)
                        then w.registered - {room.meeting} else w.registered)
  }

  // ---- As the registry sees it ----

  function Cmds(entries: seq<S.Entry>): seq<R.Command> {
    seq(|entries|, i requires 0 <= i < |entries| => Cmd(entries[i]))
  }

  function Unfinished(run: Q.World): seq<S.Entry> {
    if |run.finished| <= |run.accepted| then run.accepted[|run.finished|..] else []
  }

  function RoomSeen(room: Room): R.Room {
    R.Room(room.meeting, Cmds(Unfinished(room.run)), Q.Begun(room.run.q.activity), room.occupied, room.retiring)
  }

  function TableSeen(w: World): R.Table {
    R.Table(w.registered, map c | c in w.rooms :: RoomSeen(w.rooms[c]), w.issued)
  }

  function Seen(w: World): R.World {
    R.World(TableSeen(w), w.accepted, w.started, w.finished)
  }

  /** The step of the registry that a step is, or none if the registry sees nothing of it. */
  function StepSeen(w: World, step: Step): Option<R.Step>
    requires step.Submit? && step.m in w.registered ==> w.registered[step.m] in w.rooms
  {
    match step
    case Submit(m, e, fits) => Some(R.Submit(m, Cmd(e), Accepts(w, m, e, fits)))
    case Work(c, StartOp) => Some(R.Begin(c))
    case Work(c, EndOp) => Some(R.End(c))
    case Work(_, _) => None
    case Occupy(c, occupied) => Some(R.Occupy(c, occupied))
    case FindIdle(c) => Some(R.FindIdle(c))
    case Retire(c) => Some(R.Retire(c))
  }

  ghost predicate QueuesOk(w: World) {
    forall c :: c in w.rooms ==> Q.Inv(w.rooms[c].run)
  }

  ghost predicate Inv(w: World) {
    QueuesOk(w) && R.Inv(Seen(w))
  }

  /** What the registry sees of a queue: the operation in progress and those still to be started, counted
      by the queue's own counter. */
  lemma UnfinishedOf(run: Q.World)
    requires Q.Inv(run)
    ensures |run.finished| <= |run.accepted|
    ensures Unfinished(run) ==
      (if Q.Begun(run.q.activity) then [run.q.activity.entry] else []) + Q.ToStart(run.q)
    ensures run.q.count.pending == |Unfinished(run)|
  {
    var begun := if Q.Begun(run.q.activity) then [run.q.activity.entry] else [];
    assert run.accepted == run.finished + (begun + Q.ToStart(run.q));
    hide Q.ToStart;
  }

  lemma CmdsParts(a: S.Entry, rest: seq<S.Entry>)
    ensures Cmds([a] + rest) == [Cmd(a)] + Cmds(rest)
    ensures Cmds(rest + [a]) == Cmds(rest) + [Cmd(a)]
  {
  }

  lemma SeenRoom(w: World, c: R.Context, room: Room)
    ensures Seen(SetRoom(w, c, room)) == R.SetRoom(Seen(w), c, RoomSeen(room))
  {
  }

  lemma SeenAt(w: World, c: R.Context)
    requires c in w.rooms
    ensures c in Seen(w).t.rooms && Seen(w).t.rooms[c] == RoomSeen(w.rooms[c])
  {
  }

  lemma SeenLogs(w: World, v: World)
    requires v.rooms == w.rooms && v.issued == w.issued
    ensures Seen(v) == Seen(w).(t := Seen(w).t.(registered := v.registered),
                                accepted := v.accepted, started := v.started, finished := v.finished)
  {
  }

  /** The front of the unfinished commands is the one that starts or ends. */
  lemma FrontOf(room: Room)
    requires Q.Inv(room.run) && (Q.Begun(room.run.q.activity) || room.run.q.activity.Starting?)
    ensures var seen := RoomSeen(room);
      seen.outstanding != [] && seen.outstanding[0] == Cmd(room.run.q.activity.entry)
      && seen.outstanding[1..] == Cmds(Unfinished(room.run)[1..])
  {
    UnfinishedOf(room.run);
    FrontIs(room.run.q, Unfinished(room.run));
  }

  lemma FrontIs(q: S.Queue, all: seq<S.Entry>)
    requires Q.Begun(q.activity) || q.activity.Starting?
    requires all == (if Q.Begun(q.activity) then [q.activity.entry] else []) + Q.ToStart(q)
    ensures Cmds(all) != [] && Cmds(all)[0] == Cmd(q.activity.entry) && Cmds(all)[1..] == Cmds(all[1..])
  {
    hide Q.Pushes;
  }

  /** Posting, pumping, suspending and resuming start and end nothing. */
  lemma QuietWork(run: Q.World, step: Q.Step)
    requires Q.Enabled(run, step) && !step.Submit? && !step.StartOp? && !step.EndOp? && !step.RunJob?
    ensures var next := Q.Next(run, step);
      next.accepted == run.accepted && next.finished == run.finished &&
      Q.Begun(next.q.activity) == Q.Begun(run.q.activity)
  {
  }

  lemma QuietJob(run: Q.World)
    requires Q.Enabled(run, Q.RunJob) && (run.q.activeOp == 0 <==> run.q.activity.Idle?)
    ensures var next := Q.Next(run, Q.RunJob);
      next.accepted == run.accepted && next.finished == run.finished &&
      Q.Begun(next.q.activity) == Q.Begun(run.q.activity)
  {
  }

  lemma EndSeen(room: Room)
    requires Q.Inv(room.run) && room.run.q.activity.Running?
    ensures var seen := RoomSeen(room);
      && seen.started && seen.outstanding != []
      && RoomSeen(room.(run := Q.Next(room.run, Q.EndOp)))
         == seen.(started := false, outstanding := seen.outstanding[1..])
  {
    FrontOf(room);
    UnfinishedOf(room.run);
    hide Q.Inv, Q.ToStart, Cmds;
    var next := Q.Next(room.run, Q.EndOp);
    assert |room.run.finished| < |room.run.accepted|;
    assert Unfinished(next) == Unfinished(room.run)[1..];
  }

  /** What a step of a queue other than a submission does to what the registry sees of the room. */
  lemma WorkSeen(room: Room, step: Q.Step)
    requires Q.Inv(room.run) && Q.Enabled(room.run, step) && !step.Submit?
    ensures var seen, next := RoomSeen(room), RoomSeen(room.(run := Q.Next(room.run, step)));
      if step.StartOp? then !seen.started && next == seen.(started := true)
      else if step.EndOp? then
        seen.started && seen.outstanding != [] && next == seen.(started := false, outstanding := seen.outstanding[1..])
      else next == seen
  {
    if step.EndOp? {
      EndSeen(room);
    } else if step.RunJob? {
      assert Q.LinedAs(room.run, room.run.q);
      QuietJob(room.run);
      hide Q.Inv, Q.Next;
    } else if !step.StartOp? {
      QuietWork(room.run, step);
      hide Q.Inv, Q.Next;
    } else {
      hide Q.Inv;
    }
  }

  lemma SubmitSeen(room: Room, e: S.Entry)
    requires Q.Inv(room.run) && Q.Enabled(room.run, Q.Submit(e))
    ensures var seen := RoomSeen(room);
      RoomSeen(room.(run := Q.Next(room.run, Q.Submit(e)))) == seen.(outstanding := seen.outstanding + [Cmd(e)])
  {
    UnfinishedOf(room.run);
    var next := Q.Next(room.run, Q.Submit(e));
    assert next.accepted[|next.finished|..] == Unfinished(room.run) + [e];
    CmdsParts(e, Unfinished(room.run));
  }

  lemma PendingSeen(room: Room)
    requires Q.Inv(room.run)
    ensures Pending(room) <==> RoomSeen(room).outstanding != []
  {
    UnfinishedOf(room.run);
  }

  // ---- Simulation ----

  /** Every step is the step of the registry it is seen as, or changes nothing the registry sees. */
  lemma Simulates(w: World, step: Step)
    requires Inv(w) && Enabled(w, step)
    ensures Rooted(w)
    ensures match StepSeen(w, step)
      case None => Seen(Next(w, step)) == Seen(w)
      case Some(seen) => R.Enabled(Seen(w), seen) && Seen(Next(w, step)) == R.Next(Seen(w), seen)
  {
    hide Inv, R.Sound, Q.Inv, Seen, Next, R.Next, StepSeen, R.Enabled;
    InvParts(w);
    match step
    case Submit(m, e, fits) => SubmitStep(w, m, e, fits);
    case Work(c, inner) => WorkStep(w, c, inner);
    case Occupy(c, occupied) => OccupyStep(w, c, occupied);
    case FindIdle(c) => FindIdleStep(w, c);
    case Retire(c) =>
      PendingSeen(w.rooms[c]);
      RetireSimulates(w, c);
      AsSeen(w, step);
  }

  lemma InvParts(w: World)
    requires Inv(w)
    ensures Rooted(w) && R.Sound(Seen(w).t)
    ensures forall c :: c in w.rooms ==> Q.Inv(w.rooms[c].run)
  {
    SeenIsRooted(w);
    assert R.TableInv(Seen(w).t);
    hide R.Inv, Q.Inv, Seen;
  }

  /** What the visible steps are seen as. */
  lemma AsSeen(w: World, step: Step)
    requires Rooted(w)
    ensures match step
      case Submit(m, e, fits) => StepSeen(w, step) == Some(R.Submit(m, Cmd(e), Accepts(w, m, e, fits)))
      case Occupy(c, occupied) => StepSeen(w, step) == Some(R.Occupy(c, occupied))
      case FindIdle(c) => StepSeen(w, step) == Some(R.FindIdle(c))
      case Retire(c) => StepSeen(w, step) == Some(R.Retire(c))
      case _ => true
  {
  }

  lemma SubmitStep(w: World, m: R.Meeting, e: S.Entry, fits: bool)
    requires Rooted(w) && R.Sound(Seen(w).t) && forall c :: c in w.rooms ==> Q.Inv(w.rooms[c].run)
    ensures var step := Submit(m, e, fits);
      var seen := R.Submit(m, Cmd(e), Accepts(w, m, e, fits));
      StepSeen(w, step) == Some(seen) && R.Enabled(Seen(w), seen) && Seen(Next(w, step)) == R.Next(Seen(w), seen)
  {
    hide R.Sound, Q.Inv, Seen, Next, R.Next;
    if Accepts(w, m, e, fits) {
      Q.StartInv(w.capacity);
      SubmitSeen(Target(w, m), e);
    }
    SubmitSimulates(w, m, e, fits);
  }

  lemma WorkStep(w: World, c: R.Context, inner: Q.Step)
    requires Rooted(w) && R.Sound(Seen(w).t) && Enabled(w, Work(c, inner)) && Q.Inv(w.rooms[c].run)
    ensures match StepSeen(w, Work(c, inner))
      case None => Seen(Next(w, Work(c, inner))) == Seen(w)
      case Some(seen) => R.Enabled(Seen(w), seen) && Seen(Next(w, Work(c, inner))) == R.Next(Seen(w), seen)
  {
    hide R.Sound, Q.Inv, Seen, Next, R.Next, RoomSeen, Q.Next, StepSeen, R.Enabled;
    WorkSeen(w.rooms[c], inner);
    if inner.StartOp? || inner.EndOp? { FrontOf(w.rooms[c]); }
    WorkSimulates(w, c, inner);
  }

  lemma OccupyStep(w: World, c: R.Context, occupied: bool)
    requires Rooted(w) && R.Sound(Seen(w).t) && Enabled(w, Occupy(c, occupied)) && Q.Inv(w.rooms[c].run)
    ensures var step, seen := Occupy(c, occupied), R.Occupy(c, occupied);
      StepSeen(w, step) == Some(seen) && R.Enabled(Seen(w), seen) && Seen(Next(w, step)) == R.Next(Seen(w), seen)
  {
    hide R.Sound, Q.Inv, Seen, RoomSeen, Rooted, SetRoom;
    FrontOf(w.rooms[c]);
    FlagsSimulate(w, c, occupied, w.rooms[c].retiring);
    assert w.rooms[c].(occupied := occupied, retiring := w.rooms[c].retiring) == w.rooms[c].(occupied := occupied);
  }

  lemma FindIdleStep(w: World, c: R.Context)
    requires Rooted(w) && R.Sound(Seen(w).t) && Enabled(w, FindIdle(c)) && Q.Inv(w.rooms[c].run)
    ensures var step, seen := FindIdle(c), R.FindIdle(c);
      StepSeen(w, step) == Some(seen) && R.Enabled(Seen(w), seen) && Seen(Next(w, step)) == R.Next(Seen(w), seen)
  {
    hide R.Sound, Q.Inv, Seen, RoomSeen, Rooted, SetRoom;
    PendingSeen(w.rooms[c]);
    FlagsSimulate(w, c, w.rooms[c].occupied, true);
    assert w.rooms[c].(occupied := w.rooms[c].occupied, retiring := true) == w.rooms[c].(retiring := true);
  }

  lemma SeenIsRooted(w: World)
    requires R.Inv(Seen(w))
    ensures Rooted(w)
  {
    assert R.Sound(Seen(w).t);
    forall m | m in w.registered ensures w.registered[m] in w.rooms {
      assert w.registered[m] in TableSeen(w).rooms;
    }
    hide R.Inv;
  }

  lemma SubmitSimulates(w: World, m: R.Meeting, e: S.Entry, fits: bool)
    requires Rooted(w) && R.Sound(Seen(w).t)
    requires Accepts(w, m, e, fits) ==> var room, seen := Target(w, m), RoomSeen(Target(w, m));
      RoomSeen(room.(run := Q.Next(room.run, Q.Submit(e)))) == seen.(outstanding := seen.outstanding + [Cmd(e)])
    ensures Seen(Next(w, Submit(m, e, fits))) == R.Next(Seen(w), R.Submit(m, Cmd(e), Accepts(w, m, e, fits)))
  {
    hide R.Sound, Q.Next;
    if Accepts(w, m, e, fits) {
      var room := Target(w, m);
      var entered := room.(run := Q.Next(room.run, Q.Submit(e)));
      if m in w.registered {
        var c := w.registered[m];
        SeenAt(w, c);
        SeenRoom(w, c, entered);
        SeenLogs(SetRoom(w, c, entered), Next(w, Submit(m, e, fits)));
      } else {
        NewSeen(w, m, e);
        NewRoomSeen(w, m, entered, Next(w, Submit(m, e, fits)));
      }
    }
  }

  lemma NewRoomSeen(w: World, m: R.Meeting, room: Room, next: World)
    requires var c := R.Context(w.issued);
      next.registered == w.registered[m := c] && next.rooms == w.rooms[c := room] && next.issued == w.issued + 1
    ensures var c, t := R.Context(w.issued), Seen(w).t;
      Seen(next).t == R.Table(t.registered[m := c], t.rooms[c := RoomSeen(room)], t.issued + 1)
  {
    hide RoomSeen;
  }

  lemma NewSeen(w: World, m: R.Meeting, e: S.Entry)
    ensures var seen := RoomSeen(Room(m, Q.Start(w.capacity), false, false));
      seen.(outstanding := seen.outstanding + [Cmd(e)]) == R.Room(m, [Cmd(e)], false, false, false)
  {
  }

  lemma WorkSimulates(w: World, c: R.Context, inner: Q.Step)
    requires Rooted(w) && R.Sound(Seen(w).t) && Enabled(w, Work(c, inner))
    requires var room := w.rooms[c];
      var seen, next := RoomSeen(room), RoomSeen(room.(run := Q.Next(room.run, inner)));
      if inner.StartOp? then
        !seen.started && seen.outstanding != [] && seen.outstanding[0] == Cmd(room.run.q.activity.entry) &&
        next == seen.(started := true)
      else if inner.EndOp? then
        seen.started && seen.outstanding != [] && seen.outstanding[0] == Cmd(room.run.q.activity.entry) &&
        next == seen.(started := false, outstanding := seen.outstanding[1..])
      else next == seen
    ensures match StepSeen(w, Work(c, inner))
      case None => Seen(Next(w, Work(c, inner))) == Seen(w)
      case Some(seen) => R.Enabled(Seen(w), seen) && Seen(Next(w, Work(c, inner))) == R.Next(Seen(w), seen)
  {
    hide R.Sound, Q.Next;
    var room := w.rooms[c];
    var worked := room.(run := Q.Next(room.run, inner));
    SeenAt(w, c);
    SeenRoom(w, c, worked);
    SeenLogs(SetRoom(w, c, worked), Next(w, Work(c, inner)));
    FlagsSeen(room, room.occupied, room.retiring);
    hide Seen, TableSeen, SetRoom, RoomSeen;
    SetSame(Seen(w), c);
  }

  lemma SetSame(v: R.World, c: R.Context)
    requires c in v.t.rooms
    ensures R.SetRoom(v, c, v.t.rooms[c]) == v
  {
    assert v.t.rooms[c := v.t.rooms[c]] == v.t.rooms;
  }

  lemma FlagsSeen(room: Room, occupied: bool, retiring: bool)
    ensures RoomSeen(room.(occupied := occupied, retiring := retiring))
         == RoomSeen(room).(occupied := occupied, retiring := retiring)
    ensures RoomSeen(room).occupied == room.occupied && RoomSeen(room).retiring == room.retiring
    ensures RoomSeen(room).meeting == room.meeting && RoomSeen(room).started == Q.Begun(room.run.q.activity)
  {
    hide Cmds, Unfinished, Q.Begun;
  }

  /** Members come and go, or the strand finds the room idle. */
  lemma FlagsSimulate(w: World, c: R.Context, occupied: bool, retiring: bool)
    requires R.Sound(Seen(w).t) && c in w.rooms
    ensures var room := w.rooms[c]; var seen := RoomSeen(room);
      && c in Seen(w).t.rooms && Seen(w).t.rooms[c] == seen
      && seen.occupied == room.occupied && seen.retiring == room.retiring
      && seen.started == Q.Begun(room.run.q.activity)
      && Seen(SetRoom(w, c, room.(occupied := occupied, retiring := retiring)))
         == R.SetRoom(Seen(w), c, seen.(occupied := occupied, retiring := retiring))
  {
    var room := w.rooms[c];
    FlagsSeen(room, occupied, retiring);
    SeenAt(w, c);
    SeenRoom(w, c, room.(occupied := occupied, retiring := retiring));
    hide R.Sound, Seen, RoomSeen, SetRoom;
  }

  lemma RetireSimulates(w: World, c: R.Context)
    requires Rooted(w) && R.Sound(Seen(w).t) && Enabled(w, Retire(c))
    requires Pending(w.rooms[c]) <==> RoomSeen(w.rooms[c]).outstanding != []
    ensures R.Enabled(Seen(w), R.Retire(c)) && Seen(Next(w, Retire(c))) == R.Next(Seen(w), R.Retire(c))
  {
    hide R.Sound, Rooted;
    var room := w.rooms[c];
    FlagsSimulate(w, c, room.occupied, false);
    FlagsSeen(room, room.occupied, room.retiring);
    assert room.(retiring := false) == room.(occupied := room.occupied, retiring := false);
    SeenLogs(SetRoom(w, c, room.(retiring := false)), Next(w, Retire(c)));
    RegisteredSeen(w);
    hide RoomSeen, SetRoom, TableSeen, Pending;
  }

  lemma RegisteredSeen(w: World)
    ensures Seen(w).t.registered == w.registered && Seen(w).t.issued == w.issued
    ensures Seen(w).accepted == w.accepted && Seen(w).started == w.started && Seen(w).finished == w.finished
  {
  }

  lemma StepKeepsQueues(w: World, step: Step)
    requires Rooted(w) && QueuesOk(w) && Enabled(w, step)
    ensures QueuesOk(Next(w, step))
  {
    hide Q.Inv, Q.Next;
    match step
    case Submit(m, e, fits) =>
      if Accepts(w, m, e, fits) {
        Q.StartInv(w.capacity);
        Q.StepKeepsInv(Target(w, m).run, Q.Submit(e));
      }
    case Work(c, step) => Q.StepKeepsInv(w.rooms[c].run, step);
    case _ =>
  }

  lemma StepKeepsInv(w: World, step: Step)
    requires Inv(w) && Enabled(w, step)
    ensures Rooted(w) && Inv(Next(w, step))
  {
    Simulates(w, step);
    StepKeepsQueues(w, step);
    if StepSeen(w, step).Some? {
      R.StepKeepsInv(Seen(w), StepSeen(w, step).value);
    }
    hide Seen, R.Inv, QueuesOk, Next, StepSeen;
  }

  // ---- Runs ----

  ghost predicate Feasible(w: World, steps: seq<Step>)
    decreases |steps|
  {
    steps == [] || (Rooted(w) && Enabled(w, steps[0]) && Feasible(Next(w, steps[0]), steps[1..]))
  }

  ghost function Run(w: World, steps: seq<Step>): World
    requires Feasible(w, steps)
    decreases |steps|
  {
    if steps == [] then w else Run(Next(w, steps[0]), steps[1..])
  }

  /** Every run with queues is, as the registry sees it, a run of the registry. */
  lemma {:induction false} RunIsSeen(w: World, steps: seq<Step>) returns (seen: seq<R.Step>)
    requires Inv(w) && Feasible(w, steps)
    ensures Inv(Run(w, steps))
    ensures R.Feasible(Seen(w), seen) && R.Run(Seen(w), seen) == Seen(Run(w, steps))
    decreases |steps|
  {
    hide Inv, Seen, Next, StepSeen;
    if steps == [] {
      seen := [];
      assert R.Inv(Seen(w)) by { InvSeen(w); }
    } else {
      Simulates(w, steps[0]);
      StepKeepsInv(w, steps[0]);
      InvSeen(w);
      var rest := RunIsSeen(Next(w, steps[0]), steps[1..]);
      match StepSeen(w, steps[0])
      case None => seen := rest;
      case Some(first) =>
        seen := [first] + rest;
        assert seen[0] == first && seen[1..] == rest;
    }
  }

  lemma InvSeen(w: World)
    requires Inv(w)
    ensures R.Inv(Seen(w))
  {
  }

  lemma StartIsSeen(capacity: nat)
    ensures Inv(Start(capacity)) && Seen(Start(capacity)) == R.Start()
  {
  }

  /** A room with a command pending or running, or with members. */
  predicate InUse(room: Room) {
    Pending(room) || room.occupied
  }

  /** In every run of the registry and all the queues in it: the commands of a meeting start in the order in
      which they were accepted, one at a time, each after the end of all earlier ones, though its room may
      have been retired and made again in between; two rooms of one meeting are never both in use; and a
      meeting without a room has nothing left to do. */
  lemma OrderWithQueues(capacity: nat, steps: seq<Step>, m: R.Meeting, c: R.Context, d: R.Context)
    requires Feasible(Start(capacity), steps)
    ensures var w := Run(Start(capacity), steps);
      && Of(w.finished, m) <= Of(w.started, m) <= Of(w.accepted, m)
      && |Of(w.started, m)| <= |Of(w.finished, m)| + 1
      && (Enabled(w, Work(c, Q.StartOp)) ==>
            Of(w.started, w.rooms[c].meeting) == Of(w.finished, w.rooms[c].meeting))
      && (m !in w.registered ==> Of(w.finished, m) == Of(w.accepted, m))
      && (c in w.rooms && d in w.rooms && w.rooms[c].meeting == w.rooms[d].meeting
          && (w.rooms[c].run.q.count.pending > 0 || w.rooms[c].occupied)
          && (w.rooms[d].run.q.count.pending > 0 || w.rooms[d].occupied)
          ==> c == d)
  {
    hide Run, Seen, Inv, R.Inv, R.Run, R.Feasible, Feasible, Of;
    StartIsSeen(capacity);
    var w := Run(Start(capacity), steps);
    var seen := RunIsSeen(Start(capacity), steps);
    R.OrderSurvivesRetirement(seen, m, c, d);
    RegisteredSeen(w);
    if c in w.rooms { UseSeen(w, c); }
    if d in w.rooms { UseSeen(w, d); }
  }

  lemma UseSeen(w: World, c: R.Context)
    requires Inv(w) && c in w.rooms
    ensures c in Seen(w).t.rooms && Seen(w).t.rooms[c].meeting == w.rooms[c].meeting
    ensures InUse(w.rooms[c]) <==> R.InUse(Seen(w).t.rooms[c])
    ensures Enabled(w, Work(c, Q.StartOp)) ==> R.Enabled(Seen(w), R.Begin(c))
  {
    hide Inv, Q.Inv, RoomSeen, Seen;
    InvParts(w);
    SeenAt(w, c);
    PendingSeen(w.rooms[c]);
    FlagsSeen(w.rooms[c], true, true);
    if Enabled(w, Work(c, Q.StartOp)) { FrontOf(w.rooms[c]); }
  }
}
