/**
 The handlers of the media server in pieces: where one can be between two of its locked sections or library
 calls, what holds of its room there, and why the pieces add up to the whole.
 */
module MediaPhases {
  import opened MediaTables
  import opened MediaRooms
  import opened MediaLogic

  /** The members of a room object. */
  ghost function Who(room: MediaRoom): Members
    reads room
  {
    map u | u in room.peers :: Sess(room.peers[u].instanceId, room.peers[u].signal, room.peers[u].conn)
  }

  lemma PutAndTake<K, V>(entries: map<K, V>, key: K, value: V)
    requires key !in entries
    ensures entries[key := value] - {key} == entries && entries[key := value] != map[]
  {
    assert key in entries[key := value];
  }

  // ---- The workers of different rooms, interleaved ----

  /** Where the handler of a meeting's event is between two of its locked sections or library calls. */
  datatype Phase =
    | Idle
    | Offering(conn: Conn, uid: Uid, signal: SignalId)
    | Entering(conn: Conn, uid: Uid, signal: SignalId)
    | Telling(uid: Uid, kind: Kind)
    | Removing(uid: Uid, instance: Instance)
    | Disconnecting(todo: seq<MediaSession>)
    | Registering(uid: Uid, media: Media)
    | Adding(requests: seq<TrackRequest>, toNegotiate: seq<MediaSession>)
    | Dropping(r: TrackRequest, requests: seq<TrackRequest>, toNegotiate: seq<MediaSession>)  // r was refused
    | Negotiating(toNegotiate: seq<MediaSession>)
    | Leaving(session: MediaSession, toNegotiate: seq<MediaSession>)    // its negotiation was refused
    | Closing

  function Stage(p: Phase): nat {
    match p
    case Idle => 0
    case Closing => 1
    case Removing(_, _) => 2
    case Disconnecting(_) => 3
    case Negotiating(_) => 4
    case Leaving(_, _) => 4
    case Adding(_, _) => 5
    case Dropping(_, _, _) => 5
    case Registering(_, _) => 6
    case Telling(_, _) => 7
    case Entering(_, _, _) => 8
    case Offering(_, _, _) => 9
  }

  /** How much of a list the handler works on is left; an entry takes two steps if it is refused. */
  function Left(p: Phase): nat {
    match p
    case Disconnecting(todo) => |todo|
    case Negotiating(toNegotiate) => 2 * |toNegotiate|
    case Leaving(_, toNegotiate) => 2 * |toNegotiate| + 1
    case Adding(requests, _) => 2 * |requests|
    case Dropping(_, requests, _) => 2 * |requests| + 1
    case _ => 0
  }

  /** The handler is nearer to its end in p than in q. */
  predicate Before(p: Phase, q: Phase) {
    Stage(p) < Stage(q) || (Stage(p) == Stage(q) && Left(p) < Left(q))
  }

  /** What holds of a room while its handler is there. */
  ghost predicate InPhase(room: MediaRoom, p: Phase)
    reads room, room.peers.Values
  {
    match p
    case Idle => room.Settled() && room.peers != map[]
    case Entering(_, uid, _) => room.Settled() && uid !in room.peers
    case Telling(uid, kind) => room.Settled() && uid in room.peers && !kind.Leave?
    case Removing(uid, instance) =>
      room.Settled() || (room.SettledBut(uid) && Drops(Who(room), uid, instance))
    case Adding(requests, toNegotiate) => BeingGiven(room, requests, toNegotiate)
    case Dropping(r, requests, toNegotiate) => BeingDropped(room, r, requests, toNegotiate)
    case Negotiating(toNegotiate) => BeingTold(room, toNegotiate)
    case Leaving(session, toNegotiate) => BeingLeft(room, session, toNegotiate)
    case _ => room.Settled()
  }

  /** Some requested tracks are still to be added, and then the sessions are to negotiate. */
  ghost predicate BeingGiven(room: MediaRoom, requests: seq<TrackRequest>, toNegotiate: seq<MediaSession>)
    reads room, room.peers.Values
  {
    && room.Valid() && MeshBut(room.View(), room.Subs(), Values(requests))
    && NegotiatedBut(room.peers, SetOf(toNegotiate))
    && (forall r :: r in requests ==> room.Known(r.session) && r.session in toNegotiate)
    && (forall s :: s in toNegotiate ==> room.Known(s))
  }

  /** The receiver of a refused track is still in the room. */
  ghost predicate BeingDropped(
    room: MediaRoom, r: TrackRequest, requests: seq<TrackRequest>, toNegotiate: seq<MediaSession>)
    reads room, room.peers.Values
  {
    && room.Refused(r, Values(requests), SetOf(toNegotiate))
    && (forall other :: other in requests ==> room.Known(other.session) && other.session in toNegotiate)
    && (forall s :: s in toNegotiate ==> room.Known(s))
  }

  /** A session that could not negotiate is still in the room. */
  ghost predicate BeingLeft(room: MediaRoom, session: MediaSession, toNegotiate: seq<MediaSession>)
    reads room, room.peers.Values
  {
    room.Broke(session, SetOf(toNegotiate)) && forall s :: s in toNegotiate ==> room.Known(s)
  }

  /** Only these sessions may still have tracks that are in no Offer. */
  ghost predicate BeingTold(room: MediaRoom, toNegotiate: seq<MediaSession>)
    reads room, room.peers.Values
  {
    && room.Valid() && Mesh(room.View(), room.Subs()) && NegotiatedBut(room.peers, SetOf(toNegotiate))
    && (forall s :: s in toNegotiate ==> room.Known(s))
  }

  /** Some members have gone, nothing else. */
  ghost predicate Restricted(all: Members, rest: Members) {
    forall u :: u in rest ==> u in all && rest[u] == all[u]
  }

  /** What one step of a handler does to the members of its room, and where it leaves the handler; `number`
      is the next instance number. */
  ghost predicate Moves(p: Phase, members: Members, q: Phase, next: Members, number: Instance) {
    match p
    case Idle => q == Idle && next == members
    case Offering(conn, uid, signal) =>
      && next == AfterPreparing(members, uid, signal, conn)
      && q == (if uid in next then Telling(uid, Offer) else Entering(conn, uid, signal))
    case Entering(conn, uid, signal) =>
      || (q == Closing && next == members)
      || (q == Telling(uid, Offer) && next == members[uid := Sess(number, signal, conn)])
    case Telling(uid, _) =>
      next == members && (q == Idle || (uid in members && q == Removing(uid, members[uid].instance)))
    case Removing(uid, instance) => q == Closing && next == AfterRemoval(members, uid, instance)
    case Disconnecting(todo) =>
      if todo == [] then q == Closing && next == members
      else q == Disconnecting(todo[1..]) && next == AfterRemoval(members, todo[0].uid, todo[0].instanceId)
    case Registering(_, _) => q.Adding? && next == members
    case Adding(requests, toNegotiate) =>
      next == members &&
      if requests == [] then q == Negotiating(toNegotiate)
      else q == Adding(requests[1..], toNegotiate) || q == Dropping(requests[0], requests[1..], toNegotiate)
    case Dropping(r, requests, toNegotiate) =>
      next == AfterRemoval(members, r.session.uid, r.session.instanceId) && q == Adding(requests, toNegotiate)
    case Negotiating(toNegotiate) =>
      next == members &&
      if toNegotiate == [] then q == Closing
      else q == Negotiating(toNegotiate[1..]) || q == Leaving(toNegotiate[0], toNegotiate[1..])
    case Leaving(session, toNegotiate) =>
      next == AfterRemoval(members, session.uid, session.instanceId) && q == Negotiating(toNegotiate)
    case Closing => q == Idle && next == members
  }

  /** A session enters the room in this step, and takes the number. */
  predicate Enters(p: Phase, q: Phase) {
    p.Entering? && q.Telling?
  }

  // ---- Steps add up to the whole handler ----

  /** `issued` is the number of the session that has entered for the event, 0 if none has. */
  ghost predicate Done(e: Event, before: Members, now: Members, issued: Instance) {
    exists o :: now == After(before, e, issued, o)
  }

  /** These sessions of the connection are still to be removed. */
  ghost predicate Listed(members: Members, conn: Conn, todo: seq<MediaSession>) {
    && (forall i :: 0 <= i < |todo| ==> todo[i].instanceId != 0)
    && (forall i :: 0 <= i < |todo| && todo[i].uid in members && members[todo[i].uid].instance == todo[i].instanceId ==>
          members[todo[i].uid].conn == conn)
    && (forall u :: u in members && members[u].conn == conn ==>
          exists i :: 0 <= i < |todo| && todo[i].uid == u && todo[i].instanceId == members[u].instance)
  }

  /** Where the handler of the event is when it has begun. */
  ghost predicate Opens(e: Event, members: Members, stopped: set<Conn>, q: Phase) {
    if !Executes(members, e, stopped) then q == Idle
    else match e
      case Signal(conn, Offer, uid, signal) => q == Offering(conn, uid, signal)
      case Signal(conn, Leave, uid, signal) =>
        q == if IsFrom(members, uid, signal, conn) then Removing(uid, members[uid].instance) else Idle
      case Signal(conn, kind, uid, signal) =>
        q == if IsFrom(members, uid, signal, conn) then Telling(uid, kind) else Idle
      case TrackReady(uid, _, media) => q == Registering(uid, media)
      case LocalSignal(_, _, _, _) => q == Idle
      case Disconnected(conn) =>
        (q == Idle && members == map[]) || (q.Disconnecting? && Listed(members, conn, q.todo))
  }

  /** How far the event has got, from the members there were when it began to those there are. */
  ghost predicate Explains(p: Phase, e: Event, before: Members, now: Members, issued: Instance) {
    match p
    case Offering(conn, uid, signal) => e == Signal(conn, Offer, uid, signal) && now == before
    case Entering(conn, uid, signal) =>
      e == Signal(conn, Offer, uid, signal) && !IsFrom(before, uid, signal, conn) && now == before - {uid}
    case Telling(uid, _) =>
      && now == After(before, e, issued, Outcome(false, false, {}))
      && uid in now && now - {uid} == After(before, e, issued, Outcome(false, true, {}))
    case Removing(uid, instance) =>
      uid in now && now[uid].instance == instance && Done(e, before, now - {uid}, issued)
    case Disconnecting(todo) =>
      e.Disconnected? && Listed(now, e.conn, todo) && AfterDisconnect(now, e.conn) == AfterDisconnect(before, e.conn)
    case Registering(_, _) => IsReady(e, before) && now == before
    case Adding(_, _) => IsReady(e, before) && Restricted(before, now)
    case Dropping(_, _, _) => IsReady(e, before) && Restricted(before, now)
    case Negotiating(_) => IsReady(e, before) && Restricted(before, now)
    case Leaving(_, _) => IsReady(e, before) && Restricted(before, now)
    case Idle => Done(e, before, now, issued)
    case Closing => Done(e, before, now, issued)
  }

  predicate IsReady(e: Event, members: Members) {
    e.TrackReady? && e.uid in members && members[e.uid].instance == e.instance
  }

  lemma OpenExplains(e: Event, members: Members, stopped: set<Conn>, q: Phase)
    requires Opens(e, members, stopped, q) && Executes(members, e, stopped)
    ensures Explains(q, e, members, members, 0)
  {
    var fine := Outcome(false, false, {});
    match e
    case Disconnected(conn) =>
      if q == Idle {
        NobodyLeft(members, conn);
        assert After(members, e, 0, fine) == members;
      }
    case Signal(conn, kind, uid, signal) =>
      if !kind.Offer? {
        assert After(members, e, 0, fine) == members || kind.Leave?;
        if q == Idle { assert After(members, e, 0, fine) == members; }
        if kind.Leave? && q.Removing? { assert After(members, e, 0, fine) == members - {uid}; }
      }
    case LocalSignal(_, _, _, _) => assert After(members, e, 0, fine) == members;
    case _ =>
  }

  /** What a step does to the members takes the event further. */
  lemma MoveExplains(
    p: Phase, e: Event, before: Members, now: Members, issued: Instance, q: Phase, next: Members, number: Instance)
    requires Explains(p, e, before, now, issued) && Moves(p, now, q, next, number)
    ensures Explains(q, e, before, next, if Enters(p, q) then number else issued)
  {
    match p
    case Offering(conn, uid, signal) =>
      if q.Entering? {
        assert before - {uid} == next;
      } else {
        assert After(before, e, issued, Outcome(false, false, {})) == next;
      }
    case Entering(conn, uid, signal) =>
      if q.Telling? {
        assert (before - {uid})[uid := Sess(number, signal, conn)] == before[uid := Sess(number, signal, conn)];
        assert After(before, e, number, Outcome(false, false, {})) == next;
        PutAndTake(before - {uid}, uid, Sess(number, signal, conn));
      } else {
        assert After(before, e, issued, Outcome(true, false, {})) == next;
      }
    case Telling(uid, kind) =>
      if q != Idle {
        assert now - {uid} == After(before, e, issued, Outcome(false, true, {}));
      }
    case Disconnecting(todo) =>
      if todo == [] {
        NobodyLeft(now, e.conn);
        assert After(before, e, issued, Outcome(false, false, {})) == next;
      } else {
        TodoShrinks(now, e.conn, todo);
      }
    case Negotiating(_) =>
      if q.Closing? {
        assert forall u: Uid :: u in next ==> u in before && next[u] == before[u];
        Rest(before, next);
        assert After(before, e, issued, Outcome(false, false, before.Keys - next.Keys)) == next;
      }
    case _ =>
  }

  lemma TodoShrinks(members: Members, conn: Conn, todo: seq<MediaSession>)
    requires Listed(members, conn, todo) && todo != []
    ensures var next := AfterRemoval(members, todo[0].uid, todo[0].instanceId);
      Listed(next, conn, todo[1..]) && AfterDisconnect(next, conn) == AfterDisconnect(members, conn)
  {
    var uid := todo[0].uid;
    var next := AfterRemoval(members, uid, todo[0].instanceId);
    if uid in members && members[uid].instance == todo[0].instanceId {
      RemoveOne(members, uid, conn);
    }
    forall u: Uid | u in next && next[u].conn == conn
      ensures exists i :: 0 <= i < |todo[1..]| && todo[1..][i].uid == u && todo[1..][i].instanceId == next[u].instance
    {
      var i :| 0 <= i < |todo| && todo[i].uid == u && todo[i].instanceId == members[u].instance;
      assert i != 0 && todo[1..][i - 1] == todo[i];
    }
  }
}
