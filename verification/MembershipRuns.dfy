/** Runs of the membership handlers: operations of different meetings interleave at every storage call,
    connections are superseded, closed and disconnected at any moment, and every storage call may
    fail, with or without having taken effect. */
module MembershipRuns {
  import opened Histories
  import opened Membership

  datatype JoinAt = Check | Count | State | Add | Record | Undo | Activate | MarkActive | Bind | Reply
  datatype LeaveAt = Remove | Delete | Rest | Depart
  datatype DropAt = Look | MarkLost | MarkDeadline | Rollback | Unbind
  datatype EndAt = Verify | List | Erase | DropRoster
  datatype ExpireAt = Read | Evict | Forget | Finish

  /** The operation that owns a meeting, and the storage call it awaits. */
  datatype Op =
    | Join(c: Conn, resume: bool, known: nat, request: nat, ticket: nat, already: bool, joining: JoinAt)
    | Leave(c: Conn, leaving: LeaveAt)
    | Disconnect(c: Conn, dropping: DropAt)
    | End(c: Conn, todo: set<User>, ending: EndAt)
    | Expire(u: User, expiring: ExpireAt)

  datatype World = World(
    rooms: map<Meeting, Room>,
    bound: map<Conn, Meeting>,      // the meeting id of each connection that has one
    users: map<User, Presence>,
    routed: map<Conn, Meeting>,     // the meeting that a connection's one command in progress was sent to
    closed: set<Conn>,
    gone: set<Conn>,                // connections whose disconnect has been routed
    active: map<Meeting, Op>,
    now: nat,
    tickets: nat)

  /** What a storage call answers, and whether a failed one has taken effect all the same; the member
      that a clean-up loop treats next. */
  datatype Answer = Answer(ok: bool, applied: bool, user: User)

  datatype Step =
    | Tick
    | Close(c: Conn)
    | Route(c: Conn, m: Meeting)
    | RouteDisconnect(c: Conn)
    | Skip(c: Conn)                 // a command of a closed connection, or one that fails at once
    | Vanish(c: Conn, m: Meeting)   // the last reference to a gone connection is dropped
    | Begin(m: Meeting, op: Op)
    | Advance(m: Meeting, a: Answer)

  predicate InProgress(w: World, c: Conn) {
    c in w.routed && w.routed[c] in w.active && !w.active[w.routed[c]].Expire? && w.active[w.routed[c]].c == c
  }

  predicate Initial(op: Op) {
    match op
    case Join(_, _, _, request, _, already, at) => at == Check && !already && request > 0
    case Leave(_, at) => at == Remove
    case Disconnect(_, at) => at == Look
    case End(_, todo, at) => at == Verify && todo == {}
    case Expire(_, at) => at == Read
  }

  /** A command starts in the meeting it was routed to; once the connection is closed, only its
      disconnect does. */
  predicate MayBegin(w: World, m: Meeting, op: Op)
    requires !op.Expire?
  {
    && op.c in w.routed && w.routed[op.c] == m
    && (op.Disconnect? <==> op.c in w.gone)
    && (op.c in w.closed ==> op.Disconnect?)
  }

  predicate Enabled(w: World, step: Step) {
    match step
    case Tick => true
    case Close(c) => true
    case Route(c, m) =>
      c !in w.routed && c !in w.closed && m in w.rooms && (c in w.bound ==> w.bound[c] == m)
    case RouteDisconnect(c) => c !in w.routed && c !in w.gone
    case Skip(c) => c in w.routed && !InProgress(w, c) && c !in w.gone
    case Vanish(c, m) => c in w.gone && c !in w.routed && m in w.rooms
    case Begin(m, op) =>
      && m in w.rooms && m !in w.active && Initial(op)
      && (op.Expire? || MayBegin(w, m, op))
    case Advance(m, a) =>
      m in w.active && m in w.rooms && (w.active[m].End? && w.active[m].ending.Erase? && w.active[m].todo != {}
        ==> a.user in w.active[m].todo)
  }

  // ---- Small changes ----

  function SetRoom(w: World, m: Meeting, r: Room): World {
    w.(rooms := w.rooms[m := r])
  }

  function SetOp(w: World, m: Meeting, op: Op): World {
    w.(active := w.active[m := op])
  }

  function SetMark(r: Room, u: User, mark: Mark): Room {
    r.(marks := r.marks[u := mark])
  }

  predicate BoundTo(w: World, c: Conn, m: Meeting) {
    c in w.bound && w.bound[c] == m
  }

  /** The operation of a meeting ends: a join gives its reservation back, and the connection can send
      its next command. */
  function Finished(w: World, m: Meeting): World
    requires m in w.active
  {
    var op := w.active[m];
    w.(active := w.active - {m},
       routed := if op.Expire? then w.routed else w.routed - {op.c},
       users := if op.Join? then JoinFinished(w.users, op.c.user, m, BoundTo(w, op.c, m)) else w.users)
  }

  // ---- First segments ----

  function Unrouted(w: World, c: Conn): World {
    w.(routed := w.routed - {c})
  }

  /** A meeting already has another connection of this user, so this one may not act in it. */
  predicate Overtaken(r: Room, c: Conn) {
    c.user in r.members && r.members[c.user].session != c
  }

  predicate InGrace(r: Room, u: User, now: nat) {
    u in r.members && r.members[u].deadline.Some? && r.members[u].deadline.value > now
  }

  function DisconnectBegun(w: World, m: Meeting, op: Op): World
    requires op.Disconnect? && m in w.rooms
  {
    var r, c := w.rooms[m], op.c;
    if c !in w.bound then Unrouted(w, c)
    else if r.sessions == {} then Unrouted(w.(bound := w.bound - {c}), c)
    else
      SetOp(SetRoom(w, m, Dropped(r, c, w.now)), m,
            op.(dropping := if c in r.sessions && !HasOther(r, c) then Look else Unbind))
  }

  function Begun(w: World, m: Meeting, op: Op): World
    requires m in w.rooms
  {
    var r := w.rooms[m];
    match op
    case Join(c, _, _, _, _, _, _) =>
      if MayReserve(w.users, c.user, m) then SetOp(w.(users := Reserved(w.users, c.user, m)), m, op)
      else Unrouted(w, c)
    case Leave(c, _) => if Overtaken(r, c) || !BoundTo(w, c, m) then Unrouted(w, c) else SetOp(w, m, op)
    case Disconnect(_, _) => DisconnectBegun(w, m, op)
    case End(c, _, _) => if Overtaken(r, c) then Unrouted(w, c) else SetOp(w, m, op)
    case Expire(u, _) => if InGrace(r, u, w.now) then w else SetOp(w, m, op)
  }

  // ---- The segments after each storage call ----

  /** The ticket fits, the grace period has not run out, and the generation quoted is the current one
      or an older one in a repetition of the request accepted last. */
  predicate MayResume(r: Room, u: User, op: Op, now: nat)
    requires op.Join?
  {
    && u in r.members && r.members[u].ticket == op.ticket
    && (r.members[u].deadline.Some? ==> r.members[u].deadline.value > now)
    && (op.known == r.members[u].generation
        || (op.known < r.members[u].generation && r.members[u].last == op.request))
  }

  function BindStep(w: World, m: Meeting, op: Op): World
    requires m in w.rooms && op.Join? && (op.resume ==> op.c.user in w.rooms[m].members)
  {
    var r := w.rooms[m];
    var ticket := if op.resume then op.ticket else w.tickets;
    w.(rooms := w.rooms[m := Bound(r, op.c, op.resume, op.already, ticket, op.request)],
       bound := (w.bound - Superseded(r, op.c))[op.c := m],
       closed := w.closed + Superseded(r, op.c),
       active := w.active[m := op.(joining := Reply)],
       tickets := w.tickets + 1)
  }

  function JoinStep(w: World, m: Meeting, a: Answer): World
    requires m in w.rooms && m in w.active && w.active[m].Join?
  {
    var op, r := w.active[m], w.rooms[m];
    var u := op.c.user;
    match op.joining
    case Check =>
      if !a.ok || (op.resume && !MayResume(r, u, op, w.now)) then Finished(w, m)
      else SetOp(w, m, op.(joining := Count))
    case Count =>
      var already := u in r.roster;
      if !a.ok || (!already && |r.roster| >= r.limit) || (op.resume && !already) then Finished(w, m)
      else SetOp(w, m, op.(already := already, joining := if already && !op.resume then State else Add))
    case State =>
      if !a.ok || MarkOf(r, u) != Reconnecting then Finished(w, m) else SetOp(w, m, op.(joining := Add))
    case Add =>
      var added := if a.ok || a.applied then SetRoom(w, m, r.(roster := r.roster + {u})) else w;
      if a.ok then SetOp(added, m, op.(joining := Record)) else Finished(added, m)
    case Record =>
      if a.ok then SetOp(w, m, op.(joining := if op.already then Activate else MarkActive))
      else if op.already then Finished(w, m)
      else SetOp(w, m, op.(joining := Undo))
    case Undo =>
      Finished(if a.ok || a.applied then SetRoom(w, m, r.(roster := r.roster - {u})) else w, m)
    case MarkActive =>
      var marked := if a.ok || a.applied then SetRoom(w, m, SetMark(r, u, Active)) else w;
      SetOp(marked, m, op.(joining := if a.ok then Bind else Undo))
    case Activate =>
      var marked := if (a.ok || a.applied) && u in r.roster then SetRoom(w, m, SetMark(r, u, Active)) else w;
      if a.ok && u in r.roster then SetOp(marked, m, op.(joining := Bind)) else Finished(marked, m)
    case Bind =>
      if !a.ok || (op.resume && u !in r.members) then Finished(w, m) else BindStep(w, m, op)
    case Reply => Finished(w, m)
  }

  function LeaveStep(w: World, m: Meeting, a: Answer): World
    requires m in w.rooms && m in w.active && w.active[m].Leave?
  {
    var op, r := w.active[m], w.rooms[m];
    var c := op.c;
    match op.leaving
    case Remove =>
      var removed := if a.ok || a.applied then SetRoom(w, m, r.(roster := r.roster - {c.user})) else w;
      if a.ok then SetOp(removed, m, op.(leaving := Delete)) else Finished(removed, m)
    case Delete =>
      var deleted := if a.ok || a.applied then SetRoom(w, m, SetMark(r, c.user, Absent)) else w;
      if a.ok then SetOp(deleted, m, op.(leaving := Rest)) else Finished(deleted, m)
    case Rest =>
      if a.ok then SetOp(SetRoom(w, m, r.(sessions := r.sessions - {c})), m, op.(leaving := Depart))
      else Finished(w, m)
    case Depart =>
      Finished(SetRoom(w, m, r.(members := r.members - {c.user}))
                 .(users := Released(w.users, c.user, m), bound := w.bound - {c}), m)
  }

  function DisconnectStep(w: World, m: Meeting, a: Answer): World
    requires m in w.rooms && m in w.active && w.active[m].Disconnect?
  {
    var op, r := w.active[m], w.rooms[m];
    var u := op.c.user;
    match op.dropping
    case Look =>
      // A room_state that could not be read counts as not reconnecting.
      var lost := a.ok && u in r.roster && (a.applied || MarkOf(r, u) != Reconnecting);
      SetOp(w, m, op.(dropping := if lost then MarkLost else Unbind))
    case MarkLost =>
      var marked := if a.ok || a.applied then SetRoom(w, m, SetMark(r, u, Reconnecting)) else w;
      SetOp(marked, m, op.(dropping := if a.ok then MarkDeadline else Rollback))
    case MarkDeadline => SetOp(w, m, op.(dropping := if a.ok then Unbind else Rollback))
    case Rollback =>
      var marked := if a.ok || a.applied then SetRoom(w, m, SetMark(r, u, Active)) else w;
      SetOp(marked, m, op.(dropping := Unbind))
    case Unbind => Finished(w.(bound := w.bound - {op.c}), m)
  }

  /** The last segment of the end handler. */
  function EndClosed(w: World, m: Meeting): World
    requires m in w.rooms && m in w.active
  {
    var r := w.rooms[m];
    Finished(SetRoom(w, m, r.(members := map[], sessions := {}))
               .(users := RoomReleased(w.users, m), bound := w.bound - r.sessions), m)
  }

  function EndStep(w: World, m: Meeting, a: Answer): World
    requires m in w.rooms && m in w.active && w.active[m].End?
  {
    var op, r := w.active[m], w.rooms[m];
    match op.ending
    case Verify => if a.ok then SetOp(w, m, op.(ending := List)) else Finished(w, m)
    case List => if a.ok then SetOp(w, m, op.(todo := r.roster, ending := Erase)) else EndClosed(w, m)
    case Erase =>
      if op.todo == {} then SetOp(w, m, op.(ending := DropRoster))
      else
        var erased := if a.ok || a.applied then SetRoom(w, m, SetMark(r, a.user, Absent)) else w;
        SetOp(erased, m, op.(todo := op.todo - {a.user}))
    case DropRoster => EndClosed(if a.ok || a.applied then SetRoom(w, m, r.(roster := {})) else w, m)
  }

  function ExpireStep(w: World, m: Meeting, a: Answer): World
    requires m in w.rooms && m in w.active && w.active[m].Expire?
  {
    var op, r := w.active[m], w.rooms[m];
    match op.expiring
    case Read =>
      if a.ok && MarkOf(r, op.u) == Reconnecting then SetOp(w, m, op.(expiring := Evict)) else Finished(w, m)
    case Evict =>
      var removed := if a.ok || a.applied then SetRoom(w, m, r.(roster := r.roster - {op.u})) else w;
      if a.ok then SetOp(removed, m, op.(expiring := Forget)) else Finished(removed, m)
    case Forget =>
      SetOp(if a.ok || a.applied then SetRoom(w, m, SetMark(r, op.u, Absent)) else w, m, op.(expiring := Finish))
    case Finish =>
      Finished(SetRoom(w, m, r.(members := r.members - {op.u})).(users := Released(w.users, op.u, m)), m)
  }

  function Advanced(w: World, m: Meeting, a: Answer): World
    requires m in w.rooms && m in w.active
  {
    match w.active[m]
    case Join(_, _, _, _, _, _, _) => JoinStep(w, m, a)
    case Leave(_, _) => LeaveStep(w, m, a)
    case Disconnect(_, _) => DisconnectStep(w, m, a)
    case End(_, _, _) => EndStep(w, m, a)
    case Expire(_, _) => ExpireStep(w, m, a)
  }

  function Next(w: World, step: Step): World
    requires Enabled(w, step)
  {
    match step
    case Tick => w.(now := w.now + 1)
    case Close(c) => w.(closed := w.closed + {c})
    case Route(c, m) => w.(routed := w.routed[c := m])
    case RouteDisconnect(c) =>
      w.(closed := w.closed + {c}, gone := w.gone + {c},
         routed := if c in w.bound then w.routed[c := w.bound[c]] else w.routed)
    case Skip(c) => Unrouted(w, c)
    case Vanish(c, m) => SetRoom(w, m, w.rooms[m].(sessions := w.rooms[m].sessions - {c}))
    case Begin(m, op) => Begun(w, m, op)
    case Advance(m, a) => Advanced(w, m, a)
  }

  // ---- The invariant ----

  /** The operation is taking this connection out of the meeting. */
  predicate TornBy(op: Op, c: Conn) {
    (op.Disconnect? && op.c == c) || (op.Leave? && op.c == c && op.leaving == Depart)
  }

  predicate Tearing(w: World, m: Meeting, c: Conn) {
    m in w.active && TornBy(w.active[m], c)
  }

  predicate Joining(w: World, m: Meeting, u: User) {
    m in w.active && w.active[m].Join? && w.active[m].c.user == u
  }

  predicate JoinBy(w: World, m: Meeting, c: Conn) {
    m in w.active && w.active[m].Join? && w.active[m].c == c
  }

  predicate Attached(r: Room, c: Conn) {
    c in r.sessions && MarkOf(r, c.user) != Reconnecting
  }

  /** What a meeting id in a connection means. */
  ghost predicate BoundOk(w: World, c: Conn) {
    c in w.bound ==>
      var m := w.bound[c];
      && m in w.rooms
      && c.user in w.rooms[m].members && w.rooms[m].members[c.user].session == c
      && (Attached(w.rooms[m], c) || Tearing(w, m, c))
      && c.user in w.users && w.users[c.user].meeting == m && (w.users[c.user].joined || JoinBy(w, m, c))
  }

  /** A connection that will never be bound again. */
  predicate Retired(w: World, c: Conn) {
    c !in w.bound && c in w.closed && (c in w.routed ==> !JoinBy(w, w.routed[c], c))
  }

  ghost predicate RoomOk(w: World, m: Meeting)
    requires m in w.rooms
  {
    var r := w.rooms[m];
    && |r.roster| <= r.limit
    && (forall c :: c in r.sessions ==> BoundTo(w, c, m) || Retired(w, c))
    && (forall u :: u in r.members ==>
          && r.members[u].session.user == u && r.members[u].ticket < w.tickets
          && (BoundTo(w, r.members[u].session, m) || (Retired(w, r.members[u].session) && r.members[u].deadline.Some?)))
  }

  predicate Holds(r: Room, u: User, op: Op)
    requires op.Join?
  {
    && u in r.members && r.members[u].ticket == op.ticket
    && (op.known == r.members[u].generation
        || (op.known < r.members[u].generation && r.members[u].last == op.request))
  }

  ghost predicate NoneBound(w: World, m: Meeting, u: User) {
    forall c :: BoundTo(w, c, m) ==> c.user != u
  }

  /** What the storage calls and checks made so far have established. */
  ghost predicate Stage(w: World, m: Meeting, r: Room, op: Op) {
    match op
    case Join(c, resume, _, request, _, already, at) =>
      && request > 0
      && (resume && at != Check && at != Reply ==> Holds(r, c.user, op))
      && (resume && at != Check && at != Count ==> already)
      && (at == State || at == Add ==> if already then c.user in r.roster else |r.roster| < r.limit)
      && (at == State ==> already)
      && (at == Bind ==> MarkOf(r, c.user) != Reconnecting)
    case Leave(c, at) => at == Depart ==> c !in r.sessions
    case Disconnect(c, _) => c.user in r.members && r.members[c.user].deadline.Some?
    case End(_, todo, _) => true
    case Expire(u, at) => !InGrace(r, u, w.now) && (at != Read ==> NoneBound(w, m, u))
  }

  ghost predicate OpOk(w: World, m: Meeting)
    requires m in w.active
  {
    var op := w.active[m];
    && m in w.rooms && Stage(w, m, w.rooms[m], op)
    && (!op.Expire? ==> op.c in w.routed && w.routed[op.c] == m && (op.Disconnect? <==> op.c in w.gone))
    && (op.Leave? || op.Disconnect? ==> BoundTo(w, op.c, m))
    && (op.Join? ==> op.c.user in w.users && w.users[op.c.user].meeting == m)
  }

  ghost predicate UserOk(w: World, u: User)
    requires u in w.users
  {
    && w.users[u].joining == (if Joining(w, w.users[u].meeting, u) then 1 else 0)
    && (w.users[u].joined || w.users[u].joining > 0)
  }

  ghost predicate LinkOk(w: World, c: Conn) {
    && (c in w.routed && c in w.bound ==> w.bound[c] == w.routed[c])
    && (c in w.gone ==> c in w.closed && (c in w.routed || c !in w.bound))
  }

  ghost predicate Inv(w: World) {
    && (forall c :: BoundOk(w, c))
    && (forall m :: m in w.rooms ==> RoomOk(w, m))
    && (forall m :: m in w.active ==> OpOk(w, m))
    && (forall u :: u in w.users ==> UserOk(w, u))
    && (forall c :: LinkOk(w, c))
  }

  // ---- Steps inside a meeting ----

  predicate SameOwner(before: Op, after: Op) {
    match before
    case Join(c, resume, _, _, _, _, _) => after.Join? && after.c == c && after.resume == resume
    case Leave(c, _) => after.Leave? && after.c == c
    case Disconnect(c, _) => after.Disconnect? && after.c == c
    case End(c, _, _) => after.End? && after.c == c
    case Expire(u, _) => after.Expire? && after.u == u
  }

  predicate SameMembers(before: Room, after: Room) {
    && after.members == before.members && after.limit == before.limit
    && after.sessions <= before.sessions && |after.roster| <= after.limit
  }

  /** The operation moves on and changes what is stored. */
  ghost predicate MayMoveOn(w: World, m: Meeting, r: Room, op: Op) {
    && m in w.active && m in w.rooms
    && SameOwner(w.active[m], op) && SameMembers(w.rooms[m], r) && Stage(w, m, r, op)
    && forall c :: BoundTo(w, c, m) ==> Attached(r, c) || TornBy(op, c)
  }

  function MovedOn(w: World, m: Meeting, r: Room, op: Op): World {
    SetOp(SetRoom(w, m, r), m, op)
  }

  lemma RetiredAfterMove(w: World, m: Meeting, r: Room, op: Op, c: Conn)
    requires m in w.active && SameOwner(w.active[m], op)
    ensures Retired(w, c) ==> Retired(MovedOn(w, m, r, op), c)
  {
  }

  lemma MoveKeepsBound(w: World, m: Meeting, r: Room, op: Op, c: Conn)
    requires Inv(w) && MayMoveOn(w, m, r, op)
    ensures BoundOk(MovedOn(w, m, r, op), c) && LinkOk(MovedOn(w, m, r, op), c)
  {
    hide RoomOk, OpOk, UserOk, Stage;
    assert BoundOk(w, c) && LinkOk(w, c);
  }

  lemma MoveKeepsRoom(w: World, m: Meeting, r: Room, op: Op, k: Meeting)
    requires Inv(w) && MayMoveOn(w, m, r, op) && k in w.rooms
    ensures RoomOk(MovedOn(w, m, r, op), k)
  {
    hide BoundOk, OpOk, UserOk, Stage, LinkOk;
    assert RoomOk(w, k) && RoomOk(w, m);
    forall c ensures Retired(w, c) ==> Retired(MovedOn(w, m, r, op), c) {
      RetiredAfterMove(w, m, r, op, c);
    }
    hide Retired;
  }

  lemma MoveKeepsOp(w: World, m: Meeting, r: Room, op: Op, k: Meeting)
    requires Inv(w) && MayMoveOn(w, m, r, op) && k in w.active
    ensures OpOk(MovedOn(w, m, r, op), k)
  {
    hide BoundOk, RoomOk, UserOk, LinkOk;
    assert OpOk(w, k) && OpOk(w, m);
  }

  lemma MoveKeepsUser(w: World, m: Meeting, r: Room, op: Op, u: User)
    requires Inv(w) && MayMoveOn(w, m, r, op) && u in w.users
    ensures UserOk(MovedOn(w, m, r, op), u)
  {
    hide BoundOk, RoomOk, OpOk, LinkOk, Stage;
    assert UserOk(w, u);
  }

  lemma MovesOn(w: World, m: Meeting, r: Room, op: Op)
    requires Inv(w) && MayMoveOn(w, m, r, op)
    ensures Inv(MovedOn(w, m, r, op))
  {
    hide BoundOk, RoomOk, OpOk, UserOk, LinkOk, Stage;
    var v := MovedOn(w, m, r, op);
    forall c ensures BoundOk(v, c) && LinkOk(v, c) { MoveKeepsBound(w, m, r, op, c); }
    forall k | k in v.rooms ensures RoomOk(v, k) { MoveKeepsRoom(w, m, r, op, k); }
    forall k | k in v.active ensures OpOk(v, k) { MoveKeepsOp(w, m, r, op, k); }
    forall u | u in v.users ensures UserOk(v, u) { MoveKeepsUser(w, m, r, op, u); }
  }

  lemma FinishKeepsBound(w: World, m: Meeting, c: Conn)
    requires Inv(w) && m in w.active
    requires forall d :: BoundTo(w, d, m) ==> !TornBy(w.active[m], d)
    ensures BoundOk(Finished(w, m), c) && LinkOk(Finished(w, m), c)
  {
    hide RoomOk, Stage;
    assert OpOk(w, m) && BoundOk(w, c) && LinkOk(w, c);
    if c.user in w.users { assert UserOk(w, c.user); }
  }

  lemma FinishKeepsRoom(w: World, m: Meeting, k: Meeting)
    requires Inv(w) && m in w.active && k in w.rooms
    ensures RoomOk(Finished(w, m), k)
  {
    hide BoundOk, Stage, UserOk, OpOk, LinkOk;
    assert RoomOk(w, k);
    forall c ensures Retired(w, c) ==> Retired(Finished(w, m), c) {
    }
    hide Retired;
  }

  lemma FinishKeepsOp(w: World, m: Meeting, k: Meeting)
    requires Inv(w) && m in w.active && k in w.active && k != m
    ensures OpOk(Finished(w, m), k)
  {
    hide BoundOk, RoomOk, LinkOk;
    assert OpOk(w, k) && OpOk(w, m);
  }

  lemma FinishKeepsUser(w: World, m: Meeting, u: User)
    requires Inv(w) && m in w.active && u in Finished(w, m).users
    ensures UserOk(Finished(w, m), u)
  {
    hide BoundOk, RoomOk, LinkOk, Stage;
    assert u in w.users && UserOk(w, u) && OpOk(w, m);
  }

  lemma Finishes(w: World, m: Meeting)
    requires Inv(w) && m in w.active
    requires forall c :: BoundTo(w, c, m) ==> !TornBy(w.active[m], c)
    ensures Inv(Finished(w, m))
  {
    hide BoundOk, RoomOk, OpOk, UserOk, LinkOk, Stage;
    var v := Finished(w, m);
    forall c ensures BoundOk(v, c) && LinkOk(v, c) { FinishKeepsBound(w, m, c); }
    forall k | k in v.rooms ensures RoomOk(v, k) { FinishKeepsRoom(w, m, k); }
    forall k | k in v.active ensures OpOk(v, k) { FinishKeepsOp(w, m, k); }
    forall u | u in v.users ensures UserOk(v, u) { FinishKeepsUser(w, m, u); }
  }

  // ---- Steps that take connections out of a meeting ----

  /** The operation ends, and with it `out` leave the meeting and `users` are released. */
  function Left(w: World, m: Meeting, r: Room, out: set<Conn>, users: set<User>): World
    requires m in w.active
  {
    var op := w.active[m];
    w.(rooms := w.rooms[m := r], bound := w.bound - out, users := w.users - users, active := w.active - {m},
       routed := if op.Expire? then w.routed else w.routed - {op.c})
  }

  predicate MayGo(w: World, m: Meeting, r: Room, c: Conn) {
    && (c in w.bound ==> w.bound[c] == m)
    && (c in w.closed || c !in r.sessions)
    && (c.user in r.members ==> c in w.closed && r.members[c.user].deadline.Some?)
  }

  ghost predicate MayLeave(w: World, m: Meeting, r: Room, out: set<Conn>, users: set<User>) {
    && m in w.active && m in w.rooms && !w.active[m].Join?
    && SameMembers(w.rooms[m].(members := r.members), r)
    && (forall u :: u in r.members ==> u in w.rooms[m].members && r.members[u] == w.rooms[m].members[u])
    && (forall c :: c in out ==> MayGo(w, m, r, c))
    && (forall c :: BoundTo(w, c, m) && c !in out ==> Attached(r, c) && c.user in r.members && c.user !in users)
    && (forall u :: u in users && u in w.users ==> w.users[u].meeting == m)
    && (w.active[m].Disconnect? ==> w.active[m].c in out)
  }

  lemma LeaveKeepsBound(w: World, m: Meeting, r: Room, out: set<Conn>, users: set<User>, c: Conn)
    requires Inv(w) && MayLeave(w, m, r, out, users)
    ensures BoundOk(Left(w, m, r, out, users), c) && LinkOk(Left(w, m, r, out, users), c)
  {
    hide RoomOk, Stage, UserOk;
    assert OpOk(w, m) && BoundOk(w, c) && LinkOk(w, c);
  }

  lemma RetiredAfterLeave(w: World, m: Meeting, r: Room, out: set<Conn>, users: set<User>, c: Conn)
    requires Inv(w) && MayLeave(w, m, r, out, users)
    ensures Retired(w, c) ==> Retired(Left(w, m, r, out, users), c)
    ensures c in out && c in w.bound && c in w.closed ==> Retired(Left(w, m, r, out, users), c)
  {
    hide BoundOk, Stage, UserOk, RoomOk;
    assert LinkOk(w, c) && OpOk(w, m);
  }

  lemma LeaveKeepsRoom(w: World, m: Meeting, r: Room, out: set<Conn>, users: set<User>, k: Meeting)
    requires Inv(w) && MayLeave(w, m, r, out, users) && k in w.rooms
    ensures RoomOk(Left(w, m, r, out, users), k)
  {
    hide BoundOk, Stage, UserOk, OpOk, LinkOk;
    assert RoomOk(w, k);
    forall c
      ensures Retired(w, c) ==> Retired(Left(w, m, r, out, users), c)
      ensures c in out && c in w.bound && c in w.closed ==> Retired(Left(w, m, r, out, users), c)
    {
      RetiredAfterLeave(w, m, r, out, users, c);
    }
    hide Retired;
  }

  lemma LeaveKeepsOp(w: World, m: Meeting, r: Room, out: set<Conn>, users: set<User>, k: Meeting)
    requires Inv(w) && MayLeave(w, m, r, out, users) && k in w.active && k != m
    ensures OpOk(Left(w, m, r, out, users), k)
  {
    hide BoundOk, RoomOk, LinkOk, UserOk;
    assert OpOk(w, k) && OpOk(w, m);
  }

  lemma LeaveKeepsUser(w: World, m: Meeting, r: Room, out: set<Conn>, users: set<User>, u: User)
    requires Inv(w) && MayLeave(w, m, r, out, users) && u in w.users && u !in users
    ensures UserOk(Left(w, m, r, out, users), u)
  {
    hide BoundOk, RoomOk, LinkOk, Stage, OpOk;
    assert UserOk(w, u);
  }

  lemma Leaves(w: World, m: Meeting, r: Room, out: set<Conn>, users: set<User>)
    requires Inv(w) && MayLeave(w, m, r, out, users)
    ensures Inv(Left(w, m, r, out, users))
  {
    hide BoundOk, RoomOk, OpOk, UserOk, LinkOk, Stage;
    var v := Left(w, m, r, out, users);
    forall c ensures BoundOk(v, c) && LinkOk(v, c) { LeaveKeepsBound(w, m, r, out, users, c); }
    forall k | k in v.rooms ensures RoomOk(v, k) { LeaveKeepsRoom(w, m, r, out, users, k); }
    forall k | k in v.active ensures OpOk(v, k) { LeaveKeepsOp(w, m, r, out, users, k); }
    forall u | u in v.users ensures UserOk(v, u) { LeaveKeepsUser(w, m, r, out, users, u); }
  }

  function ReleasedUsers(w: World, m: Meeting, u: User): set<User> {
    if u in w.users && w.users[u].meeting == m then {u} else {}
  }

  lemma DepartMayLeave(w: World, m: Meeting)
    requires Inv(w) && m in w.rooms && m in w.active && w.active[m].Leave? && w.active[m].leaving == Depart
    ensures var r, c := w.rooms[m], w.active[m].c;
      MayLeave(w, m, r.(members := r.members - {c.user}), {c}, ReleasedUsers(w, m, c.user))
  {
    hide LinkOk, UserOk, Retired;
    var r, c := w.rooms[m], w.active[m].c;
    assert OpOk(w, m) && RoomOk(w, m) && BoundOk(w, c);
    forall d | BoundTo(w, d, m) && d != c
      ensures Attached(r, d) && d.user in r.members && d.user != c.user
    {
      assert BoundOk(w, d);
    }
    hide Inv, BoundOk, RoomOk;
  }

  lemma DepartKeepsInv(w: World, m: Meeting, a: Answer)
    requires Inv(w) && m in w.rooms && m in w.active && w.active[m].Leave? && w.active[m].leaving == Depart
    ensures Inv(LeaveStep(w, m, a))
  {
    hide Inv, MayLeave;
    var r, c := w.rooms[m], w.active[m].c;
    var left := r.(members := r.members - {c.user});
    DepartMayLeave(w, m);
    Leaves(w, m, left, {c}, ReleasedUsers(w, m, c.user));
    assert LeaveStep(w, m, a) == Left(w, m, left, {c}, ReleasedUsers(w, m, c.user));
  }

  lemma UnbindMayLeave(w: World, m: Meeting)
    requires Inv(w) && m in w.rooms && m in w.active && w.active[m].Disconnect?
    ensures MayLeave(w, m, w.rooms[m], {w.active[m].c}, {})
  {
    hide UserOk, Retired;
    var r, c := w.rooms[m], w.active[m].c;
    assert OpOk(w, m) && RoomOk(w, m) && BoundOk(w, c) && LinkOk(w, c);
    forall d | BoundTo(w, d, m) && d != c ensures Attached(r, d) && d.user in r.members {
      assert BoundOk(w, d);
    }
    hide Inv, BoundOk, RoomOk;
  }

  lemma UnbindKeepsInv(w: World, m: Meeting, a: Answer)
    requires Inv(w) && m in w.rooms && m in w.active && w.active[m].Disconnect? && w.active[m].dropping == Unbind
    ensures Inv(DisconnectStep(w, m, a))
  {
    hide Inv, MayLeave;
    var r, c := w.rooms[m], w.active[m].c;
    UnbindMayLeave(w, m);
    Leaves(w, m, r, {c}, {});
    assert DisconnectStep(w, m, a) == Left(w, m, r, {c}, {});
  }

  lemma EndMayLeave(w: World, m: Meeting)
    requires Inv(w) && m in w.rooms && m in w.active && w.active[m].End?
    ensures var r := w.rooms[m];
      MayLeave(w, m, r.(members := map[], sessions := {}), r.sessions, set u | u in w.users && w.users[u].meeting == m)
  {
    hide UserOk, LinkOk, Stage;
    var r := w.rooms[m];
    assert RoomOk(w, m);
    forall c | BoundTo(w, c, m) ensures c in r.sessions {
      assert BoundOk(w, c);
    }
    hide Inv, BoundOk;
  }

  lemma EndClosedKeepsInv(w: World, m: Meeting)
    requires Inv(w) && m in w.rooms && m in w.active && w.active[m].End?
    ensures Inv(EndClosed(w, m))
  {
    hide Inv, MayLeave;
    var r := w.rooms[m];
    var left := r.(members := map[], sessions := {});
    var users := set u | u in w.users && w.users[u].meeting == m;
    EndMayLeave(w, m);
    Leaves(w, m, left, r.sessions, users);
    assert EndClosed(w, m) == Left(w, m, left, r.sessions, users);
  }

  lemma EvictMayLeave(w: World, m: Meeting)
    requires Inv(w) && m in w.rooms && m in w.active && w.active[m].Expire? && w.active[m].expiring == Finish
    ensures var r, u := w.rooms[m], w.active[m].u;
      MayLeave(w, m, r.(members := r.members - {u}), {}, ReleasedUsers(w, m, u))
  {
    hide UserOk, Retired, LinkOk;
    var r, u := w.rooms[m], w.active[m].u;
    assert OpOk(w, m) && RoomOk(w, m);
    forall d | BoundTo(w, d, m) ensures Attached(r, d) && d.user in r.members && d.user != u {
      assert BoundOk(w, d);
    }
    hide Inv, BoundOk, RoomOk;
  }

  lemma EvictKeepsInv(w: World, m: Meeting, a: Answer)
    requires Inv(w) && m in w.rooms && m in w.active && w.active[m].Expire? && w.active[m].expiring == Finish
    ensures Inv(ExpireStep(w, m, a))
  {
    hide Inv, MayLeave;
    var r, u := w.rooms[m], w.active[m].u;
    var left := r.(members := r.members - {u});
    EvictMayLeave(w, m);
    Leaves(w, m, left, {}, ReleasedUsers(w, m, u));
    assert ExpireStep(w, m, a) == Left(w, m, left, {}, ReleasedUsers(w, m, u));
  }

  // ---- The binding step ----

  ghost predicate MayBind(w: World, m: Meeting) {
    && m in w.rooms && m in w.active && w.active[m].Join? && w.active[m].joining == Bind
    && Stage(w, m, w.rooms[m], w.active[m])
    && (w.active[m].resume ==> w.active[m].c.user in w.rooms[m].members)
  }

  lemma BindKeepsBound(w: World, m: Meeting, d: Conn)
    requires Inv(w) && MayBind(w, m)
    ensures BoundOk(BindStep(w, m, w.active[m]), d) && LinkOk(BindStep(w, m, w.active[m]), d)
  {
    hide RoomOk, UserOk, Retired;
    assert OpOk(w, m) && BoundOk(w, d) && LinkOk(w, d);
  }

  lemma RetiredAfterBind(w: World, m: Meeting, d: Conn)
    requires Inv(w) && MayBind(w, m)
    ensures Retired(w, d) ==> Retired(BindStep(w, m, w.active[m]), d) && d != w.active[m].c
    ensures d in Superseded(w.rooms[m], w.active[m].c) ==> Retired(BindStep(w, m, w.active[m]), d)
    ensures d in Superseded(w.rooms[m], w.active[m].c) && d in w.bound ==> w.bound[d] == m
    ensures d == w.active[m].c && d in w.bound ==> w.bound[d] == m
  {
    hide UserOk, BoundOk;
    assert OpOk(w, m) && LinkOk(w, d) && RoomOk(w, m);
  }

  /** Who is bound to a room, or never will be again, after the binding. */
  lemma LinksAfterBind(w: World, m: Meeting, k: Meeting, d: Conn)
    requires Inv(w) && MayBind(w, m)
    ensures var v, c := BindStep(w, m, w.active[m]), w.active[m].c;
      && (d == c ==> BoundTo(v, d, m) && !Retired(w, d) && (BoundTo(w, d, k) ==> k == m))
      && (Retired(w, d) ==> Retired(v, d))
      && (BoundTo(w, d, k) ==> BoundTo(v, d, k) || (Retired(v, d) && k == m && d in Superseded(w.rooms[m], c)))
  {
    hide UserOk, BoundOk, OpOk, RoomOk, LinkOk, Retired;
    RetiredAfterBind(w, m, d);
  }

  lemma BindKeepsOtherRoom(w: World, m: Meeting, k: Meeting)
    requires Inv(w) && MayBind(w, m) && k in w.rooms && k != m
    ensures RoomOk(BindStep(w, m, w.active[m]), k)
  {
    hide UserOk, BoundOk, LinkOk, Stage, OpOk, Retired;
    assert RoomOk(w, k);
    var v := BindStep(w, m, w.active[m]);
    forall d
      ensures Retired(w, d) ==> Retired(v, d)
      ensures BoundTo(w, d, k) ==> BoundTo(v, d, k)
    {
      LinksAfterBind(w, m, k, d);
    }
    hide Inv;
  }

  lemma BindKeepsOwnRoom(w: World, m: Meeting)
    requires Inv(w) && MayBind(w, m)
    ensures RoomOk(BindStep(w, m, w.active[m]), m)
  {
    hide UserOk, BoundOk, LinkOk, Stage, OpOk, Retired;
    assert RoomOk(w, m);
    var v, c := BindStep(w, m, w.active[m]), w.active[m].c;
    LinksAfterBind(w, m, m, c);
    forall d
      ensures Retired(w, d) ==> Retired(v, d)
      ensures BoundTo(w, d, m) ==> BoundTo(v, d, m) || (Retired(v, d) && d in Superseded(w.rooms[m], c))
    {
      LinksAfterBind(w, m, m, d);
    }
    hide Inv, MayBind;
  }

  lemma BindKeepsRoom(w: World, m: Meeting, k: Meeting)
    requires Inv(w) && MayBind(w, m) && k in w.rooms
    ensures RoomOk(BindStep(w, m, w.active[m]), k)
  {
    hide RoomOk, UserOk, BoundOk, LinkOk, Stage, OpOk, Inv;
    if k == m { BindKeepsOwnRoom(w, m); } else { BindKeepsOtherRoom(w, m, k); }
  }

  lemma BindKeepsOp(w: World, m: Meeting, k: Meeting)
    requires Inv(w) && MayBind(w, m) && k in w.active
    ensures OpOk(BindStep(w, m, w.active[m]), k)
  {
    assert OpOk(w, m) && OpOk(w, k);
    forall d
      ensures d in Superseded(w.rooms[m], w.active[m].c) && d in w.bound ==> w.bound[d] == m
    {
      RetiredAfterBind(w, m, d);
    }
    hide UserOk, BoundOk, LinkOk, RoomOk, Inv;
  }

  lemma BindKeepsUser(w: World, m: Meeting, u: User)
    requires Inv(w) && MayBind(w, m) && u in w.users
    ensures UserOk(BindStep(w, m, w.active[m]), u)
  {
    hide BoundOk, LinkOk, RoomOk, OpOk;
    assert UserOk(w, u);
  }

  lemma Binds(w: World, m: Meeting)
    requires Inv(w) && MayBind(w, m)
    ensures Inv(BindStep(w, m, w.active[m]))
  {
    hide BoundOk, RoomOk, OpOk, UserOk, LinkOk, Stage;
    var v := BindStep(w, m, w.active[m]);
    forall c ensures BoundOk(v, c) && LinkOk(v, c) { BindKeepsBound(w, m, c); }
    forall k | k in v.rooms ensures RoomOk(v, k) { BindKeepsRoom(w, m, k); }
    forall k | k in v.active ensures OpOk(v, k) { BindKeepsOp(w, m, k); }
    forall u | u in v.users ensures UserOk(v, u) { BindKeepsUser(w, m, u); }
  }

  // ---- Each operation ----

  /** What a room change by the operation in progress has to respect. */
  lemma RoomMayChange(w: World, m: Meeting, r: Room, op: Op)
    requires Inv(w) && m in w.rooms && m in w.active && SameOwner(w.active[m], op)
    requires r == w.rooms[m].(roster := r.roster, marks := r.marks) && |r.roster| <= r.limit
    requires Stage(w, m, r, op)
    requires forall u :: MarkOf(r, u) == Reconnecting && MarkOf(w.rooms[m], u) != Reconnecting ==>
      op.Disconnect? && op.c.user == u
    requires op.Leave? ==> (op.leaving == Depart <==> w.active[m].leaving == Depart)
    ensures Inv(MovedOn(w, m, r, op))
  {
    hide RoomOk, OpOk, UserOk, LinkOk, Stage;
    forall c | BoundTo(w, c, m) ensures Attached(r, c) || TornBy(op, c) {
      assert BoundOk(w, c);
      if op.Disconnect? && op.c.user == c.user {
        SameUserSameConn(w, m, c);
      }
    }
    MovesOn(w, m, r, op);
  }

  lemma SameUserSameConn(w: World, m: Meeting, c: Conn)
    requires Inv(w) && m in w.active && w.active[m].Disconnect? && BoundTo(w, c, m)
    requires w.active[m].c.user == c.user
    ensures w.active[m].c == c
  {
    hide RoomOk, UserOk, LinkOk, Stage;
    assert OpOk(w, m) && BoundOk(w, c) && BoundOk(w, w.active[m].c);
  }

  lemma FinishIgnoresStage(w: World, m: Meeting, op: Op)
    requires m in w.active && SameOwner(w.active[m], op)
    ensures Finished(SetOp(w, m, op), m) == Finished(w, m)
  {
  }

  /** A failed storage call: it may have taken effect, as it would for the operation's stage `op`, and
      the operation ends. */
  lemma ChangeAndFinish(w: World, m: Meeting, r: Room, op: Op)
    requires Inv(w) && m in w.rooms && m in w.active && !op.Disconnect? && SameOwner(w.active[m], op)
    requires op.Leave? ==> op.leaving != Depart && w.active[m].leaving != Depart
    requires r == w.rooms[m].(roster := r.roster, marks := r.marks) && |r.roster| <= r.limit
    requires Stage(w, m, r, op)
    requires forall u :: MarkOf(r, u) == Reconnecting ==> MarkOf(w.rooms[m], u) == Reconnecting
    ensures Inv(Finished(SetRoom(w, m, r), m))
  {
    hide Inv, Stage, Finished;
    RoomMayChange(w, m, r, op);
    Finishes(MovedOn(w, m, r, op), m);
    FinishIgnoresStage(SetRoom(w, m, r), m, op);
  }

  lemma FailKeepsInv(w: World, m: Meeting)
    requires Inv(w) && m in w.rooms && m in w.active && !w.active[m].Disconnect?
    requires w.active[m].Leave? ==> w.active[m].leaving != Depart
    ensures Inv(Finished(w, m))
  {
    hide Inv;
    Finishes(w, m);
  }

  lemma OnlyOpMoves(w: World, m: Meeting, op: Op)
    requires Inv(w) && m in w.rooms && m in w.active && SameOwner(w.active[m], op)
    requires Stage(w, m, w.rooms[m], op)
    requires op.Leave? ==> (op.leaving == Depart <==> w.active[m].leaving == Depart)
    ensures Inv(SetOp(w, m, op))
  {
    hide OpOk, BoundOk, UserOk, LinkOk, Stage;
    assert RoomOk(w, m);
    RoomMayChange(w, m, w.rooms[m], op);
    assert MovedOn(w, m, w.rooms[m], op) == SetOp(w, m, op);
  }

  lemma MarksAfterSet(r: Room, u: User, mark: Mark)
    ensures forall v :: MarkOf(SetMark(r, u, mark), v) == if v == u then mark else MarkOf(r, v)
  {
  }

  lemma CardAdd(s: set<User>, u: User, limit: nat)
    requires if u in s then |s| <= limit else |s| < limit
    ensures |s + {u}| <= limit
  {
    if u in s { assert s + {u} == s; }
  }

  lemma CardRemove(s: set<User>, u: User)
    ensures |s - {u}| <= |s|
  {
    if u !in s { assert s - {u} == s; }
  }

  lemma JoinChecksKeepInv(w: World, m: Meeting, a: Answer)
    requires Inv(w) && m in w.rooms && m in w.active && w.active[m].Join?
    requires w.active[m].joining in {Check, Count, State}
    ensures Inv(JoinStep(w, m, a))
  {
    hide Inv, Finished, BindStep;
    var op, r := w.active[m], w.rooms[m];
    StageKnown(w, m);
    hide RoomOk;
    FailKeepsInv(w, m);
    match op.joining
    case Check =>
      if a.ok && (op.resume ==> MayResume(r, op.c.user, op, w.now)) { OnlyOpMoves(w, m, op.(joining := Count)); }
    case Count =>
      var already := op.c.user in r.roster;
      var next := op.(already := already, joining := if already && !op.resume then State else Add);
      if Stage(w, m, r, next) { OnlyOpMoves(w, m, next); }
    case State => if MarkOf(r, op.c.user) == Reconnecting { OnlyOpMoves(w, m, op.(joining := Add)); }
  }

  lemma AddKeepsInv(w: World, m: Meeting, a: Answer)
    requires Inv(w) && m in w.rooms && m in w.active && w.active[m].Join? && w.active[m].joining == Add
    ensures Inv(JoinStep(w, m, a))
  {
    var op, r := w.active[m], w.rooms[m];
    var added := r.(roster := r.roster + {op.c.user});
    assert OpOk(w, m) && RoomOk(w, m);
    hide Inv, RoomOk;
    CardAdd(r.roster, op.c.user, r.limit);
    assert Stage(w, m, added, op.(joining := Record));
    hide OpOk, Stage, Finished;
    if a.ok { RoomMayChange(w, m, added, op.(joining := Record)); }
    else if a.applied { ChangeAndFinish(w, m, added, op.(joining := Record)); }
    else { FailKeepsInv(w, m); }
  }

  lemma RecordKeepsInv(w: World, m: Meeting, a: Answer)
    requires Inv(w) && m in w.rooms && m in w.active && w.active[m].Join? && w.active[m].joining == Record
    ensures Inv(JoinStep(w, m, a))
  {
    hide Inv, Finished, BindStep, MayResume;
    var op, r := w.active[m], w.rooms[m];
    StageKnown(w, m);
    var next := op.(joining := if a.ok then (if op.already then Activate else MarkActive) else Undo);
    assert Stage(w, m, r, next);
    hide Stage, RoomOk;
    if a.ok || !op.already { OnlyOpMoves(w, m, next); } else { FailKeepsInv(w, m); }
  }

  lemma UndoKeepsInv(w: World, m: Meeting, a: Answer)
    requires Inv(w) && m in w.rooms && m in w.active && w.active[m].Join? && w.active[m].joining == Undo
    ensures Inv(JoinStep(w, m, a))
  {
    hide Inv, Finished, BindStep, MayResume;
    var op, r := w.active[m], w.rooms[m];
    StageKnown(w, m);
    CardRemove(r.roster, op.c.user);
    var removed := r.(roster := r.roster - {op.c.user});
    assert Stage(w, m, removed, op);
    hide Stage;
    if a.ok || a.applied { ChangeAndFinish(w, m, removed, op); } else { FailKeepsInv(w, m); }
  }

  lemma MarkActiveKeepsInv(w: World, m: Meeting, a: Answer)
    requires Inv(w) && m in w.rooms && m in w.active && w.active[m].Join? && w.active[m].joining == MarkActive
    ensures Inv(JoinStep(w, m, a))
  {
    hide Inv, Finished, BindStep, MayResume;
    var op, r := w.active[m], w.rooms[m];
    StageKnown(w, m);
    MarksAfterSet(r, op.c.user, Active);
    var marked := if a.ok || a.applied then SetMark(r, op.c.user, Active) else r;
    var next := op.(joining := if a.ok then Bind else Undo);
    assert Stage(w, m, marked, next) && |marked.roster| <= marked.limit;
    hide Stage, RoomOk;
    RoomMayChange(w, m, marked, next);
    assert SetRoom(w, m, r) == w;
  }

  lemma ActivateKeepsInv(w: World, m: Meeting, a: Answer)
    requires Inv(w) && m in w.rooms && m in w.active && w.active[m].Join? && w.active[m].joining == Activate
    ensures Inv(JoinStep(w, m, a))
  {
    var op, r := w.active[m], w.rooms[m];
    var marked := SetMark(r, op.c.user, Active);
    assert OpOk(w, m) && RoomOk(w, m);
    hide Inv, RoomOk;
    MarksAfterSet(r, op.c.user, Active);
    assert Stage(w, m, marked, op.(joining := Bind)) && Stage(w, m, marked, op);
    hide OpOk, Stage, Finished;
    if a.ok && op.c.user in r.roster { RoomMayChange(w, m, marked, op.(joining := Bind)); }
    else if a.applied && op.c.user in r.roster { ChangeAndFinish(w, m, marked, op); }
    else { FailKeepsInv(w, m); }
  }

  lemma JoinKeepsInv(w: World, m: Meeting, a: Answer)
    requires Inv(w) && m in w.rooms && m in w.active && w.active[m].Join?
    ensures Inv(JoinStep(w, m, a))
  {
    hide Inv, Finished, Stage, BindStep;
    match w.active[m].joining
    case Check => JoinChecksKeepInv(w, m, a);
    case Count => JoinChecksKeepInv(w, m, a);
    case State => JoinChecksKeepInv(w, m, a);
    case Add => AddKeepsInv(w, m, a);
    case Record => RecordKeepsInv(w, m, a);
    case Undo => UndoKeepsInv(w, m, a);
    case MarkActive => MarkActiveKeepsInv(w, m, a);
    case Activate => ActivateKeepsInv(w, m, a);
    case Bind =>
      FailKeepsInv(w, m);
      if a.ok && (w.active[m].resume ==> w.active[m].c.user in w.rooms[m].members) {
        StageKnown(w, m);
        Binds(w, m);
      }
    case Reply => FailKeepsInv(w, m);
  }

  lemma StageKnown(w: World, m: Meeting)
    requires Inv(w) && m in w.active
    ensures m in w.rooms && Stage(w, m, w.rooms[m], w.active[m]) && RoomOk(w, m)
  {
    assert OpOk(w, m);
  }

  lemma LeaveKeepsInv(w: World, m: Meeting, a: Answer)
    requires Inv(w) && m in w.rooms && m in w.active && w.active[m].Leave?
    ensures Inv(LeaveStep(w, m, a))
  {
    hide Inv, Finished;
    var op, r := w.active[m], w.rooms[m];
    StageKnown(w, m);
    match op.leaving
    case Remove =>
      CardRemove(r.roster, op.c.user);
      var removed := r.(roster := r.roster - {op.c.user});
      if a.ok { RoomMayChange(w, m, removed, op.(leaving := Delete)); }
      else if a.applied { ChangeAndFinish(w, m, removed, op); }
      else { FailKeepsInv(w, m); }
    case Delete =>
      MarksAfterSet(r, op.c.user, Absent);
      if a.ok { RoomMayChange(w, m, SetMark(r, op.c.user, Absent), op.(leaving := Rest)); }
      else if a.applied { ChangeAndFinish(w, m, SetMark(r, op.c.user, Absent), op); }
      else { FailKeepsInv(w, m); }
    case Rest =>
      FailKeepsInv(w, m);
      SessionRemoved(w, m);
    case Depart => DepartKeepsInv(w, m, a);
  }

  lemma SessionRemoved(w: World, m: Meeting)
    requires Inv(w) && m in w.rooms && m in w.active && w.active[m].Leave? && w.active[m].leaving == Rest
    ensures var op, r := w.active[m], w.rooms[m];
      Inv(SetOp(SetRoom(w, m, r.(sessions := r.sessions - {op.c})), m, op.(leaving := Depart)))
  {
    hide UserOk, LinkOk;
    var op, r := w.active[m], w.rooms[m];
    var left := r.(sessions := r.sessions - {op.c});
    assert RoomOk(w, m);
    forall c | BoundTo(w, c, m) ensures Attached(left, c) || TornBy(op.(leaving := Depart), c) {
      assert BoundOk(w, c);
    }
    hide Inv;
    MovesOn(w, m, left, op.(leaving := Depart));
  }

  lemma DisconnectKeepsInv(w: World, m: Meeting, a: Answer)
    requires Inv(w) && m in w.rooms && m in w.active && w.active[m].Disconnect?
    ensures Inv(DisconnectStep(w, m, a))
  {
    var op, r := w.active[m], w.rooms[m];
    var u := op.c.user;
    assert OpOk(w, m) && RoomOk(w, m);
    hide Inv, BoundOk, UserOk, LinkOk;
    match op.dropping
    case Look =>
      var lost := a.ok && u in r.roster && (a.applied || MarkOf(r, u) != Reconnecting);
      OnlyOpMoves(w, m, op.(dropping := if lost then MarkLost else Unbind));
    case MarkLost =>
      MarksAfterSet(r, u, Reconnecting);
      var marked := if a.ok || a.applied then SetMark(r, u, Reconnecting) else r;
      RoomMayChange(w, m, marked, op.(dropping := if a.ok then MarkDeadline else Rollback));
      assert SetRoom(w, m, r) == w;
    case MarkDeadline => OnlyOpMoves(w, m, op.(dropping := if a.ok then Unbind else Rollback));
    case Rollback =>
      MarksAfterSet(r, u, Active);
      var marked := if a.ok || a.applied then SetMark(r, u, Active) else r;
      RoomMayChange(w, m, marked, op.(dropping := Unbind));
      assert SetRoom(w, m, r) == w;
    case Unbind => UnbindKeepsInv(w, m, a);
  }

  lemma EraseKeepsInv(w: World, m: Meeting, a: Answer)
    requires Inv(w) && m in w.rooms && m in w.active && w.active[m].End? && w.active[m].ending == Erase
    ensures Inv(EndStep(w, m, a))
  {
    hide Inv;
    var op, r := w.active[m], w.rooms[m];
    StageKnown(w, m);
    if op.todo == {} {
      OnlyOpMoves(w, m, op.(ending := DropRoster));
    } else {
      MarksAfterSet(r, a.user, Absent);
      var erased := if a.ok || a.applied then SetMark(r, a.user, Absent) else r;
      RoomMayChange(w, m, erased, op.(todo := op.todo - {a.user}));
      assert SetRoom(w, m, r) == w;
    }
  }

  lemma RosterDropped(w: World, m: Meeting)
    requires Inv(w) && m in w.rooms && m in w.active && w.active[m].End?
    ensures Inv(SetRoom(w, m, w.rooms[m].(roster := {})))
  {
    hide Inv;
    var r := w.rooms[m].(roster := {});
    RoomMayChange(w, m, r, w.active[m]);
    assert MovedOn(w, m, r, w.active[m]) == SetRoom(w, m, r);
  }

  lemma EndKeepsInv(w: World, m: Meeting, a: Answer)
    requires Inv(w) && m in w.rooms && m in w.active && w.active[m].End?
    ensures Inv(EndStep(w, m, a))
  {
    hide Inv, Finished, EndClosed;
    var op, r := w.active[m], w.rooms[m];
    match op.ending
    case Verify =>
      FailKeepsInv(w, m);
      OnlyOpMoves(w, m, op.(ending := List));
    case List =>
      OnlyOpMoves(w, m, op.(todo := r.roster, ending := Erase));
      EndClosedKeepsInv(w, m);
    case Erase => EraseKeepsInv(w, m, a);
    case DropRoster =>
      EndClosedKeepsInv(w, m);
      RosterDropped(w, m);
      EndClosedKeepsInv(SetRoom(w, m, r.(roster := {})), m);
  }

  lemma NoneBoundWhileReconnecting(w: World, m: Meeting)
    requires Inv(w) && m in w.rooms && m in w.active && w.active[m].Expire?
    requires MarkOf(w.rooms[m], w.active[m].u) == Reconnecting
    ensures NoneBound(w, m, w.active[m].u)
  {
    hide RoomOk, OpOk, UserOk, LinkOk;
    forall c | BoundTo(w, c, m) ensures c.user != w.active[m].u {
      assert BoundOk(w, c);
    }
  }

  lemma ExpireKeepsInv(w: World, m: Meeting, a: Answer)
    requires Inv(w) && m in w.rooms && m in w.active && w.active[m].Expire?
    ensures Inv(ExpireStep(w, m, a))
  {
    hide Inv, Finished, NoneBound, RoomOk;
    var op, r := w.active[m], w.rooms[m];
    StageKnown(w, m);
    RosterFits(w, m);
    match op.expiring
    case Read =>
      FailKeepsInv(w, m);
      if MarkOf(r, op.u) == Reconnecting {
        NoneBoundWhileReconnecting(w, m);
        OnlyOpMoves(w, m, op.(expiring := Evict));
      }
    case Evict =>
      CardRemove(r.roster, op.u);
      var removed := r.(roster := r.roster - {op.u});
      if a.ok { RoomMayChange(w, m, removed, op.(expiring := Forget)); }
      else if a.applied { ChangeAndFinish(w, m, removed, op); }
      else { FailKeepsInv(w, m); }
    case Forget =>
      MarksAfterSet(r, op.u, Absent);
      var erased := if a.ok || a.applied then SetMark(r, op.u, Absent) else r;
      RoomMayChange(w, m, erased, op.(expiring := Finish));
      assert SetRoom(w, m, r) == w;
    case Finish => EvictKeepsInv(w, m, a);
  }

  lemma RosterFits(w: World, m: Meeting)
    requires Inv(w) && m in w.rooms
    ensures |w.rooms[m].roster| <= w.rooms[m].limit
  {
    assert RoomOk(w, m);
  }

  lemma AdvanceKeepsInv(w: World, m: Meeting, a: Answer)
    requires Inv(w) && m in w.rooms && m in w.active
    ensures Inv(Advanced(w, m, a))
  {
    hide Inv, JoinStep, LeaveStep, DisconnectStep, EndStep, ExpireStep;
    match w.active[m]
    case Join(_, _, _, _, _, _, _) => JoinKeepsInv(w, m, a);
    case Leave(_, _) => LeaveKeepsInv(w, m, a);
    case Disconnect(_, _) => DisconnectKeepsInv(w, m, a);
    case End(_, _, _) => EndKeepsInv(w, m, a);
    case Expire(_, _) => ExpireKeepsInv(w, m, a);
  }

  // ---- Commands that arrive ----

  predicate Arrives(w: World, step: Step) {
    Enabled(w, step) && !step.Begin? && !step.Advance? && !step.Skip?
  }

  lemma ArrivalKeepsConn(w: World, step: Step, c: Conn)
    requires Inv(w) && Arrives(w, step)
    ensures BoundOk(Next(w, step), c) && LinkOk(Next(w, step), c)
    ensures Retired(w, c) ==> Retired(Next(w, step), c)
  {
    hide RoomOk, OpOk, UserOk;
    assert BoundOk(w, c) && LinkOk(w, c);
    if step.Vanish? { assert LinkOk(w, step.c); }
  }

  lemma ArrivalKeepsRoom(w: World, step: Step, m: Meeting)
    requires Inv(w) && Arrives(w, step) && m in w.rooms
    ensures RoomOk(Next(w, step), m)
  {
    hide BoundOk, OpOk, UserOk, LinkOk;
    assert RoomOk(w, m);
    forall c ensures Retired(w, c) ==> Retired(Next(w, step), c) {
      ArrivalKeepsConn(w, step, c);
    }
    hide Retired;
  }

  lemma ArrivalKeepsOp(w: World, step: Step, m: Meeting)
    requires Inv(w) && Arrives(w, step) && m in w.active
    ensures OpOk(Next(w, step), m)
  {
    hide BoundOk, RoomOk, UserOk, LinkOk;
    assert OpOk(w, m);
  }

  lemma ArrivalKeepsInv(w: World, step: Step)
    requires Inv(w) && Arrives(w, step)
    ensures Inv(Next(w, step))
  {
    hide BoundOk, RoomOk, OpOk, LinkOk, Stage;
    var v := Next(w, step);
    forall c ensures BoundOk(v, c) && LinkOk(v, c) { ArrivalKeepsConn(w, step, c); }
    forall m | m in v.rooms ensures RoomOk(v, m) { ArrivalKeepsRoom(w, step, m); }
    forall m | m in v.active ensures OpOk(v, m) { ArrivalKeepsOp(w, step, m); }
    forall u | u in v.users ensures UserOk(v, u) { assert UserOk(w, u); }
  }

  lemma UnrouteKeepsConn(w: World, c: Conn, d: Conn)
    requires Inv(w) && (c in w.gone ==> c !in w.bound)
    ensures BoundOk(Unrouted(w, c), d) && LinkOk(Unrouted(w, c), d)
    ensures Retired(w, d) ==> Retired(Unrouted(w, c), d)
  {
    assert BoundOk(w, d) && LinkOk(w, d);
  }

  lemma UnrouteKeepsInv(w: World, c: Conn)
    requires Inv(w) && !InProgress(w, c) && (c in w.gone ==> c !in w.bound)
    ensures Inv(Unrouted(w, c))
  {
    hide BoundOk, LinkOk, Retired, Stage;
    var v := Unrouted(w, c);
    forall d
      ensures BoundOk(v, d) && LinkOk(v, d)
      ensures Retired(w, d) ==> Retired(v, d)
    {
      UnrouteKeepsConn(w, c, d);
    }
    forall m | m in v.rooms ensures RoomOk(v, m) { assert RoomOk(w, m); }
    forall m | m in v.active ensures OpOk(v, m) { assert OpOk(w, m); StageIgnoresRoutes(w, c, m); }
    forall u | u in v.users ensures UserOk(v, u) { assert UserOk(w, u); }
  }

  lemma StageIgnoresRoutes(w: World, c: Conn, m: Meeting)
    requires m in w.active && m in w.rooms && Stage(w, m, w.rooms[m], w.active[m])
    ensures Stage(Unrouted(w, c), m, w.rooms[m], w.active[m])
  {
  }

  // ---- Operations that begin ----

  /** The operation takes the meeting. */
  predicate Takes(w: World, m: Meeting, op: Op) {
    && Enabled(w, Begin(m, op))
    && match op
       case Join(c, _, _, _, _, _, _) => MayReserve(w.users, c.user, m)
       case Leave(c, _) => !Overtaken(w.rooms[m], c) && BoundTo(w, c, m)
       case Disconnect(c, _) => c in w.bound
       case End(c, _, _) => !Overtaken(w.rooms[m], c)
       case Expire(u, _) => !InGrace(w.rooms[m], u, w.now)
  }

  /** A disconnect that still finds its connection bound finds it among the sessions too. */
  lemma DisconnectTakes(w: World, m: Meeting, op: Op)
    requires Inv(w) && Takes(w, m, op) && op.Disconnect?
    ensures exists at ::
      Begun(w, m, op) == SetOp(SetRoom(w, m, Dropped(w.rooms[m], op.c, w.now)), m, op.(dropping := at))
    ensures BoundTo(w, op.c, m)
  {
    hide RoomOk, OpOk, UserOk, Stage;
    assert BoundOk(w, op.c) && LinkOk(w, op.c);
    assert op.c in w.rooms[m].sessions;
    var at := if op.c in w.rooms[m].sessions && !HasOther(w.rooms[m], op.c) then Look else Unbind;
    assert Begun(w, m, op) == SetOp(SetRoom(w, m, Dropped(w.rooms[m], op.c, w.now)), m, op.(dropping := at));
  }

  lemma DropKeepsConn(w: World, m: Meeting, op: Op, c: Conn)
    requires Inv(w) && Takes(w, m, op) && op.Disconnect?
    ensures BoundOk(Begun(w, m, op), c) && LinkOk(Begun(w, m, op), c)
    ensures Retired(w, c) ==> Retired(Begun(w, m, op), c)
  {
    DisconnectTakes(w, m, op);
    hide RoomOk, OpOk, UserOk, Stage, Begun, MarkOf;
    assert BoundOk(w, c) && LinkOk(w, c);
    hide Inv, Takes;
  }

  lemma TakeKeepsConn(w: World, m: Meeting, op: Op, c: Conn)
    requires Inv(w) && Takes(w, m, op)
    ensures BoundOk(Begun(w, m, op), c) && LinkOk(Begun(w, m, op), c)
    ensures Retired(w, c) ==> Retired(Begun(w, m, op), c)
  {
    hide RoomOk, OpOk, UserOk, Stage;
    if op.Disconnect? {
      DropKeepsConn(w, m, op, c);
    } else {
      assert BoundOk(w, c) && LinkOk(w, c);
      hide DisconnectBegun;
    }
  }

  lemma DropKeepsRoom(w: World, m: Meeting, op: Op, k: Meeting)
    requires Inv(w) && Takes(w, m, op) && op.Disconnect? && k in w.rooms
    ensures k in Begun(w, m, op).rooms && RoomOk(Begun(w, m, op), k)
  {
    assert RoomOk(w, k);
    DisconnectTakes(w, m, op);
    var v := Begun(w, m, op);
    hide Begun, UserOk, OpOk, Stage, LinkOk, BoundOk;
    forall d ensures Retired(w, d) ==> Retired(v, d) {
      DropKeepsConn(w, m, op, d);
    }
    hide Retired, Inv;
  }

  lemma TakeKeepsRoom(w: World, m: Meeting, op: Op, k: Meeting)
    requires Inv(w) && Takes(w, m, op) && k in w.rooms
    ensures k in Begun(w, m, op).rooms && RoomOk(Begun(w, m, op), k)
  {
    hide UserOk, OpOk, Stage, BoundOk, LinkOk;
    if op.Disconnect? {
      DropKeepsRoom(w, m, op, k);
    } else {
      assert RoomOk(w, k);
      forall d ensures Retired(w, d) ==> Retired(Begun(w, m, op), d) {
        TakeKeepsConn(w, m, op, d);
      }
      hide Retired, Inv, DisconnectBegun;
    }
  }

  lemma DropKeepsOp(w: World, m: Meeting, op: Op, k: Meeting)
    requires Inv(w) && Takes(w, m, op) && op.Disconnect? && k in Begun(w, m, op).active
    ensures OpOk(Begun(w, m, op), k)
  {
    DisconnectTakes(w, m, op);
    hide Begun, RoomOk, UserOk, Retired;
    assert BoundOk(w, op.c) && LinkOk(w, op.c);
    if k != m { assert OpOk(w, k); }
    hide Inv, BoundOk, LinkOk;
  }

  lemma TakeKeepsOp(w: World, m: Meeting, op: Op, k: Meeting)
    requires Inv(w) && Takes(w, m, op) && k in Begun(w, m, op).active
    ensures OpOk(Begun(w, m, op), k)
  {
    hide RoomOk, UserOk, BoundOk, LinkOk;
    if op.Disconnect? {
      DropKeepsOp(w, m, op, k);
    } else {
      if k != m { assert OpOk(w, k); }
      hide Inv, DisconnectBegun;
    }
  }

  lemma TakeKeepsUser(w: World, m: Meeting, op: Op, u: User)
    requires Inv(w) && Takes(w, m, op) && u in Begun(w, m, op).users
    ensures UserOk(Begun(w, m, op), u)
  {
    hide RoomOk, OpOk, Stage;
    if op.Disconnect? { assert BoundOk(w, op.c) && LinkOk(w, op.c); }
    if u in w.users { assert UserOk(w, u); }
  }

  lemma TakeKeepsInv(w: World, m: Meeting, op: Op)
    requires Inv(w) && Takes(w, m, op) && m in w.rooms
    ensures Inv(Begun(w, m, op))
  {
    BegunSameRooms(w, m, op);
    hide BoundOk, RoomOk, OpOk, UserOk, LinkOk, Stage, Takes, Begun;
    var v := Begun(w, m, op);
    forall c ensures BoundOk(v, c) && LinkOk(v, c) { TakeKeepsConn(w, m, op, c); }
    forall k | k in v.rooms ensures RoomOk(v, k) { TakeKeepsRoom(w, m, op, k); }
    forall k | k in v.active ensures OpOk(v, k) { TakeKeepsOp(w, m, op, k); }
    forall u | u in v.users ensures UserOk(v, u) { TakeKeepsUser(w, m, op, u); }
  }

  lemma BegunSameRooms(w: World, m: Meeting, op: Op)
    requires m in w.rooms
    ensures Begun(w, m, op).rooms.Keys == w.rooms.Keys
  {
  }

  lemma NotInProgress(w: World, m: Meeting, c: Conn)
    requires m !in w.active && c in w.routed && w.routed[c] == m
    ensures !InProgress(w, c)
  {
  }

  lemma BeginKeepsInv(w: World, m: Meeting, op: Op)
    requires Inv(w) && Enabled(w, Begin(m, op))
    ensures Inv(Begun(w, m, op))
  {
    hide Inv;
    if Takes(w, m, op) {
      TakeKeepsInv(w, m, op);
    } else if !op.Expire? {
      NotInProgress(w, m, op.c);
      UnrouteKeepsInv(w, op.c);
    }
  }

  lemma SkipKeepsInv(w: World, c: Conn)
    requires Inv(w) && Enabled(w, Skip(c))
    ensures Inv(Next(w, Skip(c)))
  {
    UnrouteKeepsInv(w, c);
  }

  lemma StepKeepsInv(w: World, step: Step)
    requires Inv(w) && Enabled(w, step)
    ensures Inv(Next(w, step))
  {
    hide Inv, Begun, Advanced;
    match step
    case Begin(m, op) => BeginKeepsInv(w, m, op);
    case Advance(m, a) => AdvanceKeepsInv(w, m, a);
    case Skip(c) => SkipKeepsInv(w, c);
    case _ => ArrivalKeepsInv(w, step);
  }

  // ---- Runs ----

  /** A process that starts: nobody is connected, the store may hold what an earlier process left. */
  ghost predicate Fresh(w: World): (holds: bool)
    ensures holds ==> Inv(w)
  {
    && (forall m :: m in w.rooms ==> EmptyHere(w.rooms[m]))
    && w.bound == map[] && w.users == map[] && w.routed == map[] && w.active == map[]
    && w.closed == {} && w.gone == {}
  }

  predicate EmptyHere(r: Room) {
    r.members == map[] && r.sessions == {} && |r.roster| <= r.limit
  }

  ghost predicate Feasible(w: World, steps: seq<Step>)
    decreases |steps|
  {
    steps == [] || (Enabled(w, steps[0]) && Feasible(Next(w, steps[0]), steps[1..]))
  }

  ghost function Run(w: World, steps: seq<Step>): World
    requires Feasible(w, steps)
    decreases |steps|
  {
    if steps == [] then w else Run(Next(w, steps[0]), steps[1..])
  }

  lemma {:induction false} RunKeepsInv(w: World, steps: seq<Step>)
    requires Inv(w) && Feasible(w, steps)
    ensures Inv(Run(w, steps))
    decreases |steps|
  {
    hide Inv, Next;
    if steps != [] {
      StepKeepsInv(w, steps[0]);
      RunKeepsInv(Next(w, steps[0]), steps[1..]);
    }
  }

  /** In every run: a connection with a meeting that its own leave or disconnect is not just taking out
      of it is among the meeting's sessions, is the recorded connection of its user, and is not
      marked as reconnecting in the store. */
  lemma BoundConnectionsAreMembers(w: World, steps: seq<Step>, c: Conn)
    requires Fresh(w) && Feasible(w, steps)
    ensures var v := Run(w, steps);
      c in v.bound && !Tearing(v, v.bound[c], c) ==>
        var m := v.bound[c];
        && m in v.rooms && c in v.rooms[m].sessions
        && c.user in v.rooms[m].members && v.rooms[m].members[c.user].session == c
        && MarkOf(v.rooms[m], c.user) != Reconnecting
        && c.user in v.users && v.users[c.user].meeting == m
  {
    RunKeepsInv(w, steps);
    assert BoundOk(Run(w, steps), c);
  }

  /** Over all meetings, a user has at most one connection that is in one. */
  lemma OneConnectionPerUser(w: World, steps: seq<Step>, c: Conn, d: Conn)
    requires Fresh(w) && Feasible(w, steps)
    requires c in Run(w, steps).bound && d in Run(w, steps).bound && c.user == d.user
    ensures c == d
  {
    RunKeepsInv(w, steps);
    hide RoomOk, OpOk, UserOk, LinkOk;
    assert BoundOk(Run(w, steps), c) && BoundOk(Run(w, steps), d);
  }

  // ---- What a step other than a binding leaves alone ----

  predicate SameOrGone(before: Room, after: Room) {
    && after.limit == before.limit
    && forall u :: u in after.members ==>
         u in before.members && after.members[u].(deadline := None) == before.members[u].(deadline := None)
  }

  predicate OnlyShrinks(w: World, v: World, k: Meeting, c: Conn) {
    && (k in w.rooms ==> k in v.rooms && SameOrGone(w.rooms[k], v.rooms[k]))
    && v.tickets == w.tickets && w.closed <= v.closed
    && (c in v.bound ==> c in w.bound)
    && (c in v.routed && JoinBy(v, v.routed[c], c) ==>
          c !in w.closed || (c in w.routed && JoinBy(w, w.routed[c], c)))
  }

  predicate Binding(w: World, step: Step) {
    step.Advance? && step.a.ok && MayBindNow(w, step.m)
  }

  predicate MayBindNow(w: World, m: Meeting) {
    && m in w.rooms && m in w.active && w.active[m].Join? && w.active[m].joining == Bind
    && (w.active[m].resume ==> w.active[m].c.user in w.rooms[m].members)
  }

  lemma MoveShrinks(w: World, m: Meeting, r: Room, op: Op, k: Meeting, c: Conn)
    requires m in w.rooms && m in w.active && SameOrGone(w.rooms[m], r) && SameOwner(w.active[m], op)
    ensures OnlyShrinks(w, SetOp(SetRoom(w, m, r), m, op), k, c)
  {
  }

  lemma OpShrinks(w: World, m: Meeting, op: Op, k: Meeting, c: Conn)
    requires m in w.rooms && m in w.active && SameOwner(w.active[m], op)
    ensures OnlyShrinks(w, SetOp(w, m, op), k, c)
  {
  }

  lemma FinishShrinks(w: World, m: Meeting, r: Room, k: Meeting, c: Conn)
    requires m in w.rooms && m in w.active && SameOrGone(w.rooms[m], r)
    ensures OnlyShrinks(w, Finished(SetRoom(w, m, r), m), k, c)
    ensures OnlyShrinks(w, Finished(w, m), k, c)
  {
    hide JoinFinished;
  }

  lemma OutShrinks(w: World, m: Meeting, r: Room, users: map<User, Presence>, out: set<Conn>, k: Meeting, c: Conn)
    requires m in w.rooms && m in w.active && SameOrGone(w.rooms[m], r)
    ensures OnlyShrinks(w, Finished(SetRoom(w, m, r).(users := users, bound := w.bound - out), m), k, c)
  {
    hide JoinFinished;
  }

  lemma JoinShrinks(w: World, m: Meeting, a: Answer, k: Meeting, c: Conn)
    requires m in w.rooms && m in w.active && w.active[m].Join? && !Binding(w, Advance(m, a))
    ensures OnlyShrinks(w, JoinStep(w, m, a), k, c)
  {
    hide MarkOf, MayResume, BindStep, Finished, OnlyShrinks;
    var op, r := w.active[m], w.rooms[m];
    var u := op.c.user;
    FinishShrinks(w, m, r, k, c);
    match op.joining
    case Check => OpShrinks(w, m, op.(joining := Count), k, c);
    case Count =>
      var already := u in r.roster;
      OpShrinks(w, m, op.(already := already, joining := if already && !op.resume then State else Add), k, c);
    case State => OpShrinks(w, m, op.(joining := Add), k, c);
    case Add =>
      MoveShrinks(w, m, r.(roster := r.roster + {u}), op.(joining := Record), k, c);
      FinishShrinks(w, m, r.(roster := r.roster + {u}), k, c);
    case Record =>
      OpShrinks(w, m, op.(joining := if a.ok then (if op.already then Activate else MarkActive) else Undo), k, c);
    case Undo => FinishShrinks(w, m, r.(roster := r.roster - {u}), k, c);
    case MarkActive =>
      MoveShrinks(w, m, SetMark(r, u, Active), op.(joining := if a.ok then Bind else Undo), k, c);
      OpShrinks(w, m, op.(joining := Undo), k, c);
    case Activate =>
      MoveShrinks(w, m, SetMark(r, u, Active), op.(joining := Bind), k, c);
      FinishShrinks(w, m, SetMark(r, u, Active), k, c);
    case _ =>
  }

  lemma LeaveShrinks(w: World, m: Meeting, a: Answer, k: Meeting, c: Conn)
    requires m in w.rooms && m in w.active && w.active[m].Leave?
    ensures OnlyShrinks(w, LeaveStep(w, m, a), k, c)
  {
    hide Released, Finished, OnlyShrinks;
    var op, r := w.active[m], w.rooms[m];
    FinishShrinks(w, m, r, k, c);
    match op.leaving
    case Remove =>
      var removed := r.(roster := r.roster - {op.c.user});
      MoveShrinks(w, m, removed, op.(leaving := Delete), k, c);
      FinishShrinks(w, m, removed, k, c);
    case Delete =>
      MoveShrinks(w, m, SetMark(r, op.c.user, Absent), op.(leaving := Rest), k, c);
      FinishShrinks(w, m, SetMark(r, op.c.user, Absent), k, c);
    case Rest => MoveShrinks(w, m, r.(sessions := r.sessions - {op.c}), op.(leaving := Depart), k, c);
    case Depart =>
      OutShrinks(w, m, r.(members := r.members - {op.c.user}), Released(w.users, op.c.user, m), {op.c}, k, c);
  }

  lemma DisconnectShrinks(w: World, m: Meeting, a: Answer, k: Meeting, c: Conn)
    requires m in w.rooms && m in w.active && w.active[m].Disconnect?
    ensures OnlyShrinks(w, DisconnectStep(w, m, a), k, c)
  {
    hide MarkOf, Finished, OnlyShrinks;
    var op, r := w.active[m], w.rooms[m];
    var u := op.c.user;
    match op.dropping
    case Look =>
      var lost := a.ok && u in r.roster && (a.applied || MarkOf(r, u) != Reconnecting);
      OpShrinks(w, m, op.(dropping := if lost then MarkLost else Unbind), k, c);
    case MarkLost =>
      MoveShrinks(w, m, SetMark(r, u, Reconnecting), op.(dropping := if a.ok then MarkDeadline else Rollback), k, c);
      OpShrinks(w, m, op.(dropping := Rollback), k, c);
    case MarkDeadline => OpShrinks(w, m, op.(dropping := if a.ok then Unbind else Rollback), k, c);
    case Rollback =>
      MoveShrinks(w, m, SetMark(r, u, Active), op.(dropping := Unbind), k, c);
      OpShrinks(w, m, op.(dropping := Unbind), k, c);
    case Unbind =>
      OutShrinks(w, m, r, w.users, {op.c}, k, c);
      assert SetRoom(w, m, r) == w;
  }

  lemma EndClosedShrinks(w: World, m: Meeting, k: Meeting, c: Conn)
    requires m in w.rooms && m in w.active && w.active[m].End?
    ensures OnlyShrinks(w, EndClosed(w, m), k, c)
    ensures OnlyShrinks(w, EndClosed(SetRoom(w, m, w.rooms[m].(roster := {})), m), k, c)
  {
    hide RoomReleased;
  }

  lemma EndShrinks(w: World, m: Meeting, a: Answer, k: Meeting, c: Conn)
    requires m in w.rooms && m in w.active && w.active[m].End?
    ensures OnlyShrinks(w, EndStep(w, m, a), k, c)
  {
    hide Finished, EndClosed, OnlyShrinks;
    var op, r := w.active[m], w.rooms[m];
    FinishShrinks(w, m, r, k, c);
    EndClosedShrinks(w, m, k, c);
    match op.ending
    case Verify => OpShrinks(w, m, op.(ending := List), k, c);
    case List => OpShrinks(w, m, op.(todo := r.roster, ending := Erase), k, c);
    case Erase =>
      OpShrinks(w, m, op.(ending := DropRoster), k, c);
      OpShrinks(w, m, op.(todo := op.todo - {a.user}), k, c);
      MoveShrinks(w, m, SetMark(r, a.user, Absent), op.(todo := op.todo - {a.user}), k, c);
    case DropRoster =>
  }

  lemma ExpireShrinks(w: World, m: Meeting, a: Answer, k: Meeting, c: Conn)
    requires m in w.rooms && m in w.active && w.active[m].Expire?
    ensures OnlyShrinks(w, ExpireStep(w, m, a), k, c)
  {
    hide Released, MarkOf, Finished, OnlyShrinks;
    var op, r := w.active[m], w.rooms[m];
    FinishShrinks(w, m, r, k, c);
    match op.expiring
    case Read => OpShrinks(w, m, op.(expiring := Evict), k, c);
    case Evict =>
      var removed := r.(roster := r.roster - {op.u});
      MoveShrinks(w, m, removed, op.(expiring := Forget), k, c);
      FinishShrinks(w, m, removed, k, c);
    case Forget =>
      MoveShrinks(w, m, SetMark(r, op.u, Absent), op.(expiring := Finish), k, c);
      OpShrinks(w, m, op.(expiring := Finish), k, c);
    case Finish =>
      OutShrinks(w, m, r.(members := r.members - {op.u}), Released(w.users, op.u, m), {}, k, c);
      assert w.bound - {} == w.bound;
  }

  lemma StartShrinks(w: World, m: Meeting, op: Op, at: Op, users: map<User, Presence>, r: Room, k: Meeting, c: Conn)
    requires Enabled(w, Begin(m, op)) && SameOwner(op, at) && SameOrGone(w.rooms[m], r)
    ensures OnlyShrinks(w, SetOp(SetRoom(w, m, r).(users := users), m, at), k, c)
    ensures OnlyShrinks(w, SetOp(w.(users := users), m, at), k, c)
  {
  }

  lemma DropShrinks(w: World, c: Conn, out: set<Conn>, k: Meeting, d: Conn)
    ensures OnlyShrinks(w, Unrouted(w.(bound := w.bound - out), c), k, d)
    ensures OnlyShrinks(w, Unrouted(w, c), k, d) && OnlyShrinks(w, w, k, d)
  {
  }

  lemma BeginShrinks(w: World, m: Meeting, op: Op, k: Meeting, c: Conn)
    requires Enabled(w, Begin(m, op))
    ensures OnlyShrinks(w, Begun(w, m, op), k, c)
  {
    hide Reserved, HasOther, OnlyShrinks, Initial, MayBegin, Overtaken, InGrace, MayReserve;
    var r := w.rooms[m];
    StartShrinks(w, m, op, op, w.users, r, k, c);
    DropShrinks(w, if op.Expire? then Conn(0, op.u) else op.c, {}, k, c);
    match op
    case Join(d, _, _, _, _, _, _) => StartShrinks(w, m, op, op, Reserved(w.users, d.user, m), r, k, c);
    case Disconnect(d, _) =>
      DropShrinks(w, d, {d}, k, c);
      var at := op.(dropping := if d in r.sessions && !HasOther(r, d) then Look else Unbind);
      StartShrinks(w, m, op, at, w.users, Dropped(r, d, w.now), k, c);
    case _ =>
  }

  lemma ArrivalShrinks(w: World, step: Step, k: Meeting, c: Conn)
    requires Inv(w) && Arrives(w, step)
    ensures OnlyShrinks(w, Next(w, step), k, c)
  {
    if step.RouteDisconnect? && step.c in w.bound && w.bound[step.c] in w.active {
      assert OpOk(w, w.bound[step.c]);
    }
    hide Inv;
  }

  lemma StepShrinks(w: World, step: Step, k: Meeting, c: Conn)
    requires Inv(w) && Enabled(w, step) && !Binding(w, step)
    ensures OnlyShrinks(w, Next(w, step), k, c)
  {
    hide Inv, JoinStep, LeaveStep, DisconnectStep, EndStep, ExpireStep, Begun;
    if Arrives(w, step) { ArrivalShrinks(w, step, k, c); }
    match step
    case Begin(m, op) => BeginShrinks(w, m, op, k, c);
    case Advance(m, a) => {
      match w.active[m]
      case Join(_, _, _, _, _, _, _) => JoinShrinks(w, m, a, k, c);
      case Leave(_, _) => LeaveShrinks(w, m, a, k, c);
      case Disconnect(_, _) => DisconnectShrinks(w, m, a, k, c);
      case End(_, _, _) => EndShrinks(w, m, a, k, c);
      case Expire(_, _) => ExpireShrinks(w, m, a, k, c);
    }
    case _ =>
  }

  // ---- Superseded connections ----

  lemma StepKeepsRetired(w: World, step: Step, c: Conn)
    requires Inv(w) && Enabled(w, step) && Retired(w, c)
    ensures Retired(Next(w, step), c)
  {
    if Binding(w, step) {
      StageKnown(w, step.m);
      RetiredAfterBind(w, step.m, c);
    } else {
      hide Inv, Next;
      StepShrinks(w, step, Meeting(0), c);
    }
  }

  /** The connection from which a binding takes the membership is out of its meeting at once. */
  lemma SupersededIsRetired(w: World, m: Meeting, a: Answer, d: Conn)
    requires Inv(w) && Enabled(w, Advance(m, a)) && MayBind(w, m) && a.ok
    requires d in Superseded(w.rooms[m], w.active[m].c)
    ensures Retired(Next(w, Advance(m, a)), d)
    ensures w.active[m].c in Next(w, Advance(m, a)).bound
  {
    RetiredAfterBind(w, m, d);
  }

  /** And whatever happens afterwards it is never in a meeting again, and its disconnect, whenever it is
      carried out, changes nothing: not the member that took over, nor the store, nor any timer. */
  lemma LateDisconnectChangesNothing(w: World, steps: seq<Step>, c: Conn, m: Meeting, op: Op)
    requires Inv(w) && Retired(w, c) && Feasible(w, steps)
    requires op.Disconnect? && op.c == c && Enabled(Run(w, steps), Begin(m, op))
    ensures c !in Run(w, steps).bound
    ensures Next(Run(w, steps), Begin(m, op)) == Unrouted(Run(w, steps), c)
    decreases |steps|
  {
    if steps != [] {
      StepKeepsInv(w, steps[0]);
      StepKeepsRetired(w, steps[0], c);
      LateDisconnectChangesNothing(Next(w, steps[0]), steps[1..], c, m, op);
    }
  }

  // ---- Expiry ----

  /** An expiry that has got past its checks, from the removal in the store to the end, is for a user
      without a connection in the meeting whose grace period, if this process granted it, is over. */
  lemma ExpiryEvictsOnlyLapsed(w: World, steps: seq<Step>, m: Meeting, c: Conn)
    requires Fresh(w) && Feasible(w, steps)
    requires var v := Run(w, steps); m in v.active && v.active[m].Expire? && v.active[m].expiring != Read
    ensures var v := Run(w, steps);
      var u := v.active[m].u;
      && (BoundTo(v, c, m) ==> c.user != u)
      && (m in v.rooms && u in v.rooms[m].members ==>
            v.rooms[m].members[u].deadline.Some? && v.rooms[m].members[u].deadline.value <= v.now)
  {
    RunKeepsInv(w, steps);
    var v := Run(w, steps);
    assert OpOk(v, m) && RoomOk(v, m);
  }

  // ---- Capacity ----

  lemma StepKeepsLimits(w: World, step: Step, m: Meeting)
    requires Inv(w) && Enabled(w, step) && m in w.rooms
    ensures m in Next(w, step).rooms && Next(w, step).rooms[m].limit == w.rooms[m].limit
  {
    hide Inv;
    if !Binding(w, step) {
      hide Next;
      StepShrinks(w, step, m, Conn(0, User(0)));
    }
  }

  lemma RunKeepsLimits(w: World, steps: seq<Step>, m: Meeting)
    requires Inv(w) && Feasible(w, steps) && m in w.rooms
    ensures m in Run(w, steps).rooms && Run(w, steps).rooms[m].limit == w.rooms[m].limit
    decreases |steps|
  {
    if steps != [] {
      StepKeepsInv(w, steps[0]);
      StepKeepsLimits(w, steps[0], m);
      RunKeepsLimits(Next(w, steps[0]), steps[1..], m);
    }
  }

  /** The stored member set never exceeds the limit of the meeting, although the check and the insertion
      are separate storage calls. */
  lemma NeverOverfull(w: World, steps: seq<Step>, m: Meeting)
    requires Fresh(w) && Feasible(w, steps) && m in w.rooms
    ensures m in Run(w, steps).rooms && |Run(w, steps).rooms[m].roster| <= w.rooms[m].limit
  {
    RunKeepsInv(w, steps);
    RunKeepsLimits(w, steps, m);
    assert RoomOk(Run(w, steps), m);
  }

  // ---- Generations ----

  /** A resume that is accepted quoted the current generation, or an older one in a repetition of the
      request accepted last; it counts exactly the takeover by another connection. */
  lemma ResumeAccepted(w: World, m: Meeting, a: Answer)
    requires Inv(w) && Enabled(w, Advance(m, a)) && MayBind(w, m) && w.active[m].resume && a.ok
    ensures var op, before := w.active[m], w.rooms[m].members[w.active[m].c.user];
      var after := Next(w, Advance(m, a)).rooms[m].members[op.c.user];
      && before.ticket == op.ticket
      && (op.known == before.generation || (op.known < before.generation && before.last == op.request))
      && after.generation == before.generation + (if before.session == op.c then 0 else 1)
      && after == Member(op.ticket, after.generation, op.request, op.c, None)
  {
  }

  /** The membership under ticket t, as long as it exists, has at least generation g. */
  predicate AtLeast(w: World, m: Meeting, u: User, t: nat, g: nat) {
    && t < w.tickets && m in w.rooms
    && (u in w.rooms[m].members && w.rooms[m].members[u].ticket == t ==> w.rooms[m].members[u].generation >= g)
  }

  lemma BindKeepsGeneration(w: World, m: Meeting, a: Answer, k: Meeting, u: User, t: nat, g: nat)
    requires MayBindNow(w, m) && a.ok && AtLeast(w, k, u, t, g)
    ensures AtLeast(JoinStep(w, m, a), k, u, t, g)
  {
    hide Finished, MayResume, MarkOf, SetMark;
  }

  lemma StepKeepsGeneration(w: World, step: Step, m: Meeting, u: User, t: nat, g: nat)
    requires Inv(w) && Enabled(w, step) && AtLeast(w, m, u, t, g)
    ensures AtLeast(Next(w, step), m, u, t, g)
  {
    hide Inv, JoinStep, LeaveStep, DisconnectStep, EndStep, ExpireStep, Begun;
    if Binding(w, step) {
      BindKeepsGeneration(w, step.m, step.a, m, u, t, g);
    } else {
      StepShrinks(w, step, m, Conn(0, User(0)));
      hide Next;
    }
  }

  /** Under a fixed ticket the generation never falls, whatever else happens. */
  lemma GenerationNeverFalls(w: World, steps: seq<Step>, m: Meeting, u: User)
    requires Inv(w) && Feasible(w, steps) && m in w.rooms && u in w.rooms[m].members
    ensures AtLeast(Run(w, steps), m, u, w.rooms[m].members[u].ticket, w.rooms[m].members[u].generation)
  {
    assert RoomOk(w, m);
    RunKeepsGeneration(w, steps, m, u, w.rooms[m].members[u].ticket, w.rooms[m].members[u].generation);
  }

  lemma RunKeepsGeneration(w: World, steps: seq<Step>, m: Meeting, u: User, t: nat, g: nat)
    requires Inv(w) && Feasible(w, steps) && AtLeast(w, m, u, t, g)
    ensures AtLeast(Run(w, steps), m, u, t, g)
    decreases |steps|
  {
    if steps != [] {
      StepKeepsInv(w, steps[0]);
      StepKeepsGeneration(w, steps[0], m, u, t, g);
      RunKeepsGeneration(Next(w, steps[0]), steps[1..], m, u, t, g);
    }
  }

  /** The ticket was issued and the user's membership, if any, is under another one. */
  predicate TicketGone(w: World, m: Meeting, u: User, t: nat) {
    t < w.tickets && m in w.rooms && (u in w.rooms[m].members ==> w.rooms[m].members[u].ticket != t)
  }

  lemma BindKeepsTicketGone(w: World, m: Meeting, a: Answer, k: Meeting, u: User, t: nat)
    requires MayBindNow(w, m) && a.ok && TicketGone(w, k, u, t)
    ensures TicketGone(JoinStep(w, m, a), k, u, t)
  {
    hide Finished, MayResume, MarkOf, SetMark;
  }

  lemma StepKeepsTicketGone(w: World, step: Step, m: Meeting, u: User, t: nat)
    requires Inv(w) && Enabled(w, step) && TicketGone(w, m, u, t)
    ensures TicketGone(Next(w, step), m, u, t)
  {
    hide Inv, JoinStep, LeaveStep, DisconnectStep, EndStep, ExpireStep, Begun;
    if Binding(w, step) {
      BindKeepsTicketGone(w, step.m, step.a, m, u, t);
    } else {
      StepShrinks(w, step, m, Conn(0, User(0)));
      hide Next;
    }
  }

  /** A ticket that has been replaced, or whose membership has ended, never comes back. */
  lemma {:induction false} ReplacedTicketStaysGone(w: World, steps: seq<Step>, m: Meeting, u: User, t: nat)
    requires Inv(w) && Feasible(w, steps) && TicketGone(w, m, u, t)
    ensures TicketGone(Run(w, steps), m, u, t)
    decreases |steps|
  {
    hide Inv, Next, TicketGone;
    if steps != [] {
      StepKeepsInv(w, steps[0]);
      StepKeepsTicketGone(w, steps[0], m, u, t);
      ReplacedTicketStaysGone(Next(w, steps[0]), steps[1..], m, u, t);
    }
  }
}
