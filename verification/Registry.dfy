/**
 The registry of meetings of the realtime server (LogicDispatch.cpp): queues are created on first
 use and retired when a meeting is empty, while other threads keep submitting.
 */
module Registry {
  import opened Histories

  datatype Meeting = Meeting(id: nat)
  datatype Context = Context(id: nat)     // one Room object with its queue
  datatype Command = Command(id: nat)

  /** A room object: the commands it has accepted and not finished, oldest first (QueueRuns), whether
      the first of them has started, whether it has members or sessions, and whether its strand is
      between finding the room empty and taking the registry lock. */
  datatype Room = Room(meeting: Meeting, outstanding: seq<Command>, started: bool, occupied: bool, retiring: bool)

  datatype Table = Table(registered: map<Meeting, Context>, rooms: map<Context, Room>, issued: nat)

  ghost predicate Sound(t: Table) {
    && (forall m :: m in t.registered ==> t.registered[m] in t.rooms && t.rooms[t.registered[m]].meeting == m)
    && (forall c :: c in t.rooms ==> c.id < t.issued)
  }

  function Fresh(t: Table): Context {
    Context(t.issued)
  }

  function Submitted(t: Table, m: Meeting, cmd: Command, admitted: bool): Table
    requires Sound(t)
  {
    if !admitted then t
    else if m in t.registered then
      var c := t.registered[m];
      t.(rooms := t.rooms[c := t.rooms[c].(outstanding := t.rooms[c].outstanding + [cmd])])
    else
      Table(t.registered[m := Fresh(t)], t.rooms[Fresh(t) := Room(m, [cmd], false, false, false)], t.issued + 1)
  }

  predicate IsRegistered(t: Table, c: Context)
    requires c in t.rooms
  {
    t.rooms[c].meeting in t.registered && t.registered[t.rooms[c].meeting] == c
  }

  /** The last part of on_idle, under the registry lock. */
  function Retired(t: Table, c: Context): Table
    requires c in t.rooms
  {
    var room := t.rooms[c];
    t.(registered := if IsRegistered(t, c) && room.outstanding == [] then t.registered - {room.meeting}
                     else t.registered,
       rooms := t.rooms[c := room.(retiring := false)])
  }

  class LogicDispatch {
    var registered: map<Meeting, Context>
    var rooms: map<Context, Room>
    var issued: nat

    ghost function View(): Table
      reads this
    {
      Table(registered, rooms, issued)
    }

    constructor ()
      ensures View() == Table(map[], map[], 0)
    {
      registered, rooms, issued := map[], map[], 0;
    }

    /** `admits` is the decision of the queue's own admission check. A room that was created for a
        command that is then refused does not stay registered. */
    method SubmitRoom(m: Meeting, cmd: Command, admits: bool) returns (accepted: bool)
      requires Sound(View())
      modifies this
      ensures accepted == admits && Sound(View())
      ensures admits ==> View() == Submitted(old(View()), m, cmd, true)
      ensures admits ==> m in registered && registered[m] in rooms
      ensures admits ==> registered == old(registered)[m := registered[m]]
      ensures admits && m in old(registered) ==> registered == old(registered)
      ensures admits && m in old(registered) ==>
        rooms[registered[m]] == old(rooms)[registered[m]].(outstanding := old(rooms)[registered[m]].outstanding + [cmd])
      ensures admits && m !in old(registered) ==> registered[m] !in old(rooms)
      ensures admits && m !in old(registered) ==> rooms[registered[m]] == Room(m, [cmd], false, false, false)
      ensures admits ==> forall c :: c in old(rooms) && c != registered[m] ==> c in rooms && rooms[c] == old(rooms)[c]
      ensures !admits ==> registered == old(registered)
      ensures !admits ==> forall c :: c in old(rooms) ==> c in rooms && rooms[c] == old(rooms)[c]
    {
      var created := m !in registered;
      if created {
        registered := registered[m := Context(issued)];
        rooms := rooms[Context(issued) := Room(m, [], false, false, false)];
        issued := issued + 1;
      }
      var c := registered[m];
      if admits {
        rooms := rooms[c := rooms[c].(outstanding := rooms[c].outstanding + [cmd])];
        assert [] + [cmd] == [cmd];
        assert rooms == Submitted(old(View()), m, cmd, true).rooms;
      } else if created {
        registered := registered - {m};
      }
      return admits;
    }

    /** The room was found without members and sessions on its strand; a command may have been
        submitted since. */
    method Retire(c: Context)
      requires c in rooms
      modifies this
      ensures View() == Retired(old(View()), c)
      ensures var m := old(rooms)[c].meeting;
        registered == if m in old(registered) && old(registered)[m] == c && old(rooms)[c].outstanding == []
                      then old(registered) - {m} else old(registered)
      ensures c in rooms && !rooms[c].retiring && rooms[c].outstanding == old(rooms)[c].outstanding
      ensures forall d :: d in old(rooms) && d != c ==> d in rooms && rooms[d] == old(rooms)[d]
    {
      var room := rooms[c];
      if room.meeting in registered && registered[room.meeting] == c && room.outstanding == [] {
        registered := registered - {room.meeting};
      }
      rooms := rooms[c := room.(retiring := false)];
    }
  }

  // ---- Runs ----

  datatype World = World(
    t: Table,
    accepted: seq<(Meeting, Command)>,
    started: seq<(Meeting, Command)>,
    finished: seq<(Meeting, Command)>)

  datatype Step =
    | Submit(m: Meeting, cmd: Command, admitted: bool)
    | Begin(c: Context)
    | Occupy(c: Context, occupied: bool)   // the operation in progress adds or removes members
    | End(c: Context)
    | FindIdle(c: Context)
    | Retire(c: Context)

  predicate Busy(room: Room) {
    room.started && room.outstanding != []
  }

  predicate InUse(room: Room) {
    room.outstanding != [] || room.occupied
  }

  predicate Enabled(w: World, step: Step) {
    match step
    case Submit(_, _, _) => true
    case Begin(c) =>
      c in w.t.rooms && !w.t.rooms[c].started && !w.t.rooms[c].retiring && w.t.rooms[c].outstanding != []
    case Occupy(c, _) => c in w.t.rooms && Busy(w.t.rooms[c])
    case End(c) => c in w.t.rooms && Busy(w.t.rooms[c])
    case FindIdle(c) => c in w.t.rooms && w.t.rooms[c].outstanding == [] && !w.t.rooms[c].occupied
    case Retire(c) => c in w.t.rooms && w.t.rooms[c].retiring
  }

  function SetRoom(w: World, c: Context, room: Room): World {
    w.(t := w.t.(rooms := w.t.rooms[c := room]))
  }

  function Next(w: World, step: Step): World
    requires Sound(w.t) && Enabled(w, step)
  {
    match step
    case Submit(m, cmd, admitted) =>
      w.(t := Submitted(w.t, m, cmd, admitted),
         accepted := if admitted then w.accepted + [(m, cmd)] else w.accepted)
    case Begin(c) =>
      var room := w.t.rooms[c];
      SetRoom(w, c, room.(started := true)).(started := w.started + [(room.meeting, room.outstanding[0])])
    case Occupy(c, occupied) => SetRoom(w, c, w.t.rooms[c].(occupied := occupied))
    case End(c) =>
      var room := w.t.rooms[c];
      SetRoom(w, c, room.(started := false, outstanding := room.outstanding[1..]))
        .(finished := w.finished + [(room.meeting, room.outstanding[0])])
    case FindIdle(c) => SetRoom(w, c, w.t.rooms[c].(retiring := true))
    case Retire(c) => w.(t := Retired(w.t, c))
  }

  predicate RoomSound(room: Room) {
    && (room.started ==> room.outstanding != [] && !room.retiring)
    && (room.retiring ==> !room.occupied)
  }

  function Outstanding(t: Table, m: Meeting): seq<Command>
    requires Sound(t)
  {
    if m in t.registered then t.rooms[t.registered[m]].outstanding else []
  }

  predicate InProgress(t: Table, m: Meeting)
    requires Sound(t)
  {
    m in t.registered && t.rooms[t.registered[m]].started
  }

  /** A room with work or members is the registered one of its meeting. */
  ghost predicate NoneLost(t: Table) {
    forall c :: c in t.rooms && InUse(t.rooms[c]) ==> IsRegistered(t, c)
  }

  ghost predicate InOrder(w: World, m: Meeting)
    requires Sound(w.t)
  {
    && Of(w.accepted, m) == Of(w.finished, m) + Outstanding(w.t, m)
    && Of(w.started, m) == Of(w.finished, m) +
         (if InProgress(w.t, m) && Outstanding(w.t, m) != [] then [Outstanding(w.t, m)[0]] else [])
  }

  ghost predicate TableInv(t: Table) {
    Sound(t) && NoneLost(t) && forall c :: c in t.rooms ==> RoomSound(t.rooms[c])
  }

  ghost predicate Inv(w: World) {
    TableInv(w.t) && forall m :: InOrder(w, m)
  }

  lemma SetKeepsTable(t: Table, c: Context, room: Room)
    requires TableInv(t) && c in t.rooms && room.meeting == t.rooms[c].meeting && RoomSound(room)
    requires InUse(room) ==> IsRegistered(t, c)
    ensures TableInv(t.(rooms := t.rooms[c := room]))
  {
  }

  lemma SubmittedKeepsTable(t: Table, m: Meeting, cmd: Command)
    requires TableInv(t)
    ensures TableInv(Submitted(t, m, cmd, true))
  {
    if m in t.registered {
      var c := t.registered[m];
      assert RoomSound(t.rooms[c]);
      SetKeepsTable(t, c, t.rooms[c].(outstanding := t.rooms[c].outstanding + [cmd]));
    }
  }

  lemma RetiredKeepsTable(t: Table, c: Context)
    requires TableInv(t) && c in t.rooms && t.rooms[c].retiring
    ensures TableInv(Retired(t, c))
  {
    assert RoomSound(t.rooms[c]);
  }

  lemma StepKeepsTable(w: World, step: Step)
    requires TableInv(w.t) && Enabled(w, step)
    ensures TableInv(Next(w, step).t)
  {
    hide TableInv;
    match step
    case Submit(m, cmd, admitted) => if admitted { SubmittedKeepsTable(w.t, m, cmd); }
    case Retire(c) => RetiredKeepsTable(w.t, c);
    case Begin(c) =>
      RoomIsSound(w.t, c);
      SetKeepsTable(w.t, c, w.t.rooms[c].(started := true));
    case Occupy(c, occupied) =>
      RoomIsSound(w.t, c);
      SetKeepsTable(w.t, c, w.t.rooms[c].(occupied := occupied));
    case End(c) =>
      RoomIsSound(w.t, c);
      SetKeepsTable(w.t, c, w.t.rooms[c].(started := false, outstanding := w.t.rooms[c].outstanding[1..]));
    case FindIdle(c) =>
      RoomIsSound(w.t, c);
      SetKeepsTable(w.t, c, w.t.rooms[c].(retiring := true));
  }

  lemma RoomIsSound(t: Table, c: Context)
    requires TableInv(t) && c in t.rooms
    ensures RoomSound(t.rooms[c]) && (InUse(t.rooms[c]) ==> IsRegistered(t, c))
  {
  }

  lemma SetEffect(t: Table, c: Context, room: Room, m: Meeting)
    requires TableInv(t) && c in t.rooms && room.meeting == t.rooms[c].meeting
    requires InUse(t.rooms[c]) || !InUse(room)
    ensures var next := t.(rooms := t.rooms[c := room]);
      Sound(next) && if m == room.meeting && InUse(t.rooms[c])
        then Outstanding(next, m) == room.outstanding && Outstanding(t, m) == t.rooms[c].outstanding &&
             InProgress(next, m) == room.started && InProgress(t, m) == t.rooms[c].started
        else (m != room.meeting || t.rooms[c].outstanding == [] == room.outstanding) ==>
             Outstanding(next, m) == Outstanding(t, m)
               && (Outstanding(t, m) != [] ==> InProgress(next, m) == InProgress(t, m))
  {
  }

  lemma BeginKeepsOrder(w: World, c: Context, m: Meeting)
    requires TableInv(w.t) && InOrder(w, m) && Enabled(w, Begin(c))
    ensures Sound(Next(w, Begin(c)).t) && InOrder(Next(w, Begin(c)), m)
  {
    hide TableInv, RoomSound, Sound;
    var room := w.t.rooms[c];
    OfAppend(w.started, (room.meeting, room.outstanding[0]), m);
    SetEffect(w.t, c, room.(started := true), m);
  }

  lemma EndKeepsOrder(w: World, c: Context, m: Meeting)
    requires TableInv(w.t) && InOrder(w, m) && Enabled(w, End(c))
    ensures Sound(Next(w, End(c)).t) && InOrder(Next(w, End(c)), m)
  {
    hide TableInv, RoomSound, Sound;
    var room := w.t.rooms[c];
    assert room.outstanding == [room.outstanding[0]] + room.outstanding[1..];
    OfAppend(w.finished, (room.meeting, room.outstanding[0]), m);
    SetEffect(w.t, c, room.(started := false, outstanding := room.outstanding[1..]), m);
  }

  lemma SameWorkKeepsOrder(w: World, c: Context, room: Room, m: Meeting)
    requires TableInv(w.t) && InOrder(w, m) && c in w.t.rooms
    requires room == w.t.rooms[c].(occupied := room.occupied, retiring := room.retiring)
    requires InUse(w.t.rooms[c]) || !InUse(room)
    ensures Sound(SetRoom(w, c, room).t) && InOrder(SetRoom(w, c, room), m)
  {
    hide TableInv, RoomSound, Sound;
    SetEffect(w.t, c, room, m);
  }

  lemma RetiredEffect(t: Table, c: Context, m: Meeting)
    requires TableInv(t) && c in t.rooms && t.rooms[c].retiring
    ensures Sound(Retired(t, c)) && Outstanding(Retired(t, c), m) == Outstanding(t, m)
    ensures Outstanding(t, m) != [] ==> InProgress(Retired(t, c), m) == InProgress(t, m)
  {
    RetiredKeepsTable(t, c);
    hide NoneLost, RoomSound;
  }

  lemma RetireKeepsOrder(w: World, c: Context, m: Meeting)
    requires TableInv(w.t) && InOrder(w, m) && Enabled(w, Retire(c))
    ensures Sound(Next(w, Retire(c)).t) && InOrder(Next(w, Retire(c)), m)
  {
    hide TableInv, Retired, Outstanding, InProgress, Sound;
    RetiredEffect(w.t, c, m);
  }

  lemma StepKeepsOrder(w: World, step: Step, m: Meeting)
    requires TableInv(w.t) && InOrder(w, m) && Enabled(w, step)
    ensures Sound(Next(w, step).t) && InOrder(Next(w, step), m)
  {
    hide InOrder, Sound;
    assert Sound(w.t);
    match step
    case Submit(k, cmd, admitted) => if admitted { SubmitKeepsOrder(w, k, cmd, m); }
    case Begin(c) => BeginKeepsOrder(w, c, m);
    case Occupy(c, occupied) => SameWorkKeepsOrder(w, c, w.t.rooms[c].(occupied := occupied), m);
    case End(c) => EndKeepsOrder(w, c, m);
    case FindIdle(c) => SameWorkKeepsOrder(w, c, w.t.rooms[c].(retiring := true), m);
    case Retire(c) => RetireKeepsOrder(w, c, m);
  }

  lemma SubmittedEffect(t: Table, k: Meeting, cmd: Command, m: Meeting)
    requires TableInv(t)
    ensures var next := Submitted(t, k, cmd, true);
      && Sound(next)
      && Outstanding(next, m) == Outstanding(t, m) + (if m == k then [cmd] else [])
      && InProgress(next, m) == InProgress(t, m)
  {
    SubmittedKeepsTable(t, k, cmd);
  }

  lemma SubmitKeepsOrder(w: World, k: Meeting, cmd: Command, m: Meeting)
    requires TableInv(w.t) && InOrder(w, m)
    ensures var t := Submitted(w.t, k, cmd, true);
      Sound(t) && InOrder(w.(t := t, accepted := w.accepted + [(k, cmd)]), m)
  {
    hide Submitted, Outstanding;
    OfAppend(w.accepted, (k, cmd), m);
    SubmittedEffect(w.t, k, cmd, m);
    if Outstanding(w.t, m) == [] { NotStarted(w.t, m); }
  }

  lemma NotStarted(t: Table, m: Meeting)
    requires TableInv(t) && Outstanding(t, m) == []
    ensures !InProgress(t, m)
  {
  }

  lemma StepKeepsInv(w: World, step: Step)
    requires Inv(w) && Enabled(w, step)
    ensures Inv(Next(w, step))
  {
    hide InOrder, Next;
    StepKeepsTable(w, step);
    forall m ensures InOrder(Next(w, step), m) {
      StepKeepsOrder(w, step, m);
    }
  }

  ghost predicate Feasible(w: World, steps: seq<Step>)
    requires Inv(w)
    decreases |steps|
  {
    steps == [] ||
      (Enabled(w, steps[0]) && (StepKeepsInv(w, steps[0]); Feasible(Next(w, steps[0]), steps[1..])))
  }

  ghost function Run(w: World, steps: seq<Step>): (end: World)
    requires Inv(w) && Feasible(w, steps)
    ensures Inv(end)
    decreases |steps|
  {
    if steps == [] then w
    else
      StepKeepsInv(w, steps[0]);
      Run(Next(w, steps[0]), steps[1..])
  }

  function Start(): World {
    World(Table(map[], map[], 0), [], [], [])
  }

  /** In every run, whatever is created, retired and created again: the commands of a meeting start in
      the order in which they were accepted, each after all earlier ones have finished, and two room
      objects of one meeting never both have work or members. */
  lemma OrderSurvivesRetirement(steps: seq<Step>, m: Meeting, c: Context, d: Context)
    requires Feasible(Start(), steps)
    ensures var w := Run(Start(), steps);
      && Of(w.finished, m) <= Of(w.started, m) <= Of(w.accepted, m)
      && |Of(w.started, m)| <= |Of(w.finished, m)| + 1
      && (c in w.t.rooms && Enabled(w, Begin(c)) ==>
            Of(w.started, w.t.rooms[c].meeting) == Of(w.finished, w.t.rooms[c].meeting))
      && (m !in w.t.registered ==> Of(w.finished, m) == Of(w.accepted, m))
      && (c in w.t.rooms && d in w.t.rooms && w.t.rooms[c].meeting == w.t.rooms[d].meeting
          && (w.t.rooms[c].outstanding != [] || w.t.rooms[c].occupied)
          && (w.t.rooms[d].outstanding != [] || w.t.rooms[d].occupied)
          ==> c == d)
  {
    var w := Run(Start(), steps);
    OneInUse(w.t, c, d);
    assert InOrder(w, m);
    hide NoneLost, RoomSound, IsRegistered, Run, Feasible;
    if c in w.t.rooms { assert InOrder(w, w.t.rooms[c].meeting); }
  }

  lemma OneInUse(t: Table, c: Context, d: Context)
    requires TableInv(t)
    ensures c in t.rooms && d in t.rooms && t.rooms[c].meeting == t.rooms[d].meeting ==>
      InUse(t.rooms[c]) && InUse(t.rooms[d]) ==> c == d
  {
  }

  /** Retiring drops a room only when it has no work and no members, and a meeting with either keeps
      its room: whatever step is taken, it stays registered. */
  lemma NoRoomIsDropped(w: World, step: Step, m: Meeting)
    requires Inv(w) && Enabled(w, step) && m in w.t.registered
    requires var room := Next(w, step).t.rooms[w.t.registered[m]]; room.outstanding != [] || room.occupied
    ensures var next := Next(w, step).t; m in next.registered && next.registered[m] == w.t.registered[m]
  {
    StepKeepsTable(w, step);
  }
}
