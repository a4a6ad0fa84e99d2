/**
 The handlers on the room objects (LogicSystem.cpp): each as a whole, and step by step beside the handlers of
 other meetings.
 */
module MediaHandlers {
  import opened MediaTables
  import opened MediaRooms
  import opened MediaLogic
  import opened MediaPhases

  // ---- On one room ----

  /** The flags of a session's negotiation, and whether it has an Offer of its own outstanding. */
  datatype Negotiation = Negotiation(answered: bool, waiting: bool, pending: bool, outstanding: bool)

  ghost function Flags(s: MediaSession): Negotiation
    reads s
  {
    Negotiation(s.initialAnswerCreated, s.waitingRemoteAnswer, s.negotiationPending, s.haveLocalOffer)
  }

  /** What a signal does to a session that is not broken over it. */
  predicate Takes(kind: Kind, before: Negotiation, after: Negotiation) {
    match kind
    case Offer => after.answered && !after.pending && after.outstanding == before.pending
    case Answer => before.outstanding && !after.pending && after.outstanding == before.pending
    case _ => after == before
  }

  /** Passes an Offer, Answer or candidate to the session of a member. */
  method Deliver(room: MediaRoom, uid: Uid, kind: Kind) returns (done: bool)
    requires room.Settled() && uid in room.peers && !kind.Leave?
    modifies room.peers[uid]
    ensures done ==> room.Settled()
    ensures !done ==> room.SettledBut(uid)
    ensures done ==> Takes(kind, old(Flags(room.peers[uid])), Flags(room.peers[uid]))
    ensures room.peers[uid].stalled ==>
      old(room.peers[uid].stalled) || (kind.Offer? && old(room.peers[uid].waitingRemoteAnswer))
  {
    hide Mesh, MediaSession.Covered, MediaSession.Negotiating;
    ghost var before := room.Subs();
    var session := room.peers[uid];
    var throws: bool, offerThrows: bool := *, *;
    match kind {
      case Offer => done := session.SetRemoteOffer(throws, offerThrows);
      case Answer => done := session.SetRemoteAnswer(throws, offerThrows);
      case Candidate => done := session.AddRemoteCandidate(throws);
    }
    assert room.Subs() == before;
  }

  method RemoveMember(room: MediaRoom, uid: Uid, instance: Instance)
    requires room.Settled() || (room.SettledBut(uid) && Drops(Who(room), uid, instance))
    modifies room, room.peers.Values`outgoingVideo, room.peers.Values`outgoingAudio
    ensures room.Settled() && Who(room) == AfterRemoval(old(Who(room)), uid, instance)
    ensures room.peers.Values <= old(room.peers.Values)
    ensures room.peers == if Drops(old(Who(room)), uid, instance) then old(room.peers) - {uid} else old(room.peers)
  {
    hide Mesh, NegotiatedBut, MediaSession.Negotiating, MediaSession.Covered;
    room.RemovePeer(uid, instance);
  }

  method AddMember(room: MediaRoom, session: MediaSession)
    requires room.Settled() && session.uid !in room.peers && session.View() == Consumed(map[], map[])
    requires session.Negotiating() && session.Covered()
    modifies room
    ensures room.Settled() && room.peers == old(room.peers)[session.uid := session]
    ensures Who(room) == old(Who(room))[session.uid := Sess(session.instanceId, session.signal, session.conn)]
  {
    hide Mesh, NegotiatedBut, MediaSession.Negotiating, MediaSession.Covered;
    room.AddPeer(session);
  }

  /** The sessions that the connection had when the event began are removed one by one. */
  method RemoveConnection(room: MediaRoom, conn: Conn)
    requires room.Settled()
    modifies room, room.peers.Values`outgoingVideo, room.peers.Values`outgoingAudio
    ensures room.Settled() && Who(room) == AfterDisconnect(old(Who(room)), conn)
    ensures room.peers.Values <= old(room.peers.Values)
    ensures forall u :: u in room.peers ==> u in old(room.peers) && room.peers[u] == old(room.peers[u])
  {
    var remaining := set u | u in room.peers && room.peers[u].conn == conn;
    hide MediaRoom.Settled, Who;
    while remaining != {}
      invariant room.Settled() && room.peers.Values <= old(room.peers.Values)
      invariant forall u :: u in remaining <==> u in room.peers && room.peers[u].conn == conn
      invariant forall u :: u in room.peers ==> u in old(room.peers) && room.peers[u] == old(room.peers[u])
      invariant AfterDisconnect(Who(room), conn) == AfterDisconnect(old(Who(room)), conn)
      decreases remaining
    {
      remaining := RemoveNext(room, conn, remaining);
    }
    assert forall u :: u in Who(room) ==> Who(room)[u].conn != conn by { WhoIs(room); }
    NobodyLeft(Who(room), conn);
  }

  lemma SettledIsValid(room: MediaRoom)
    requires room.Settled()
    ensures room.Valid()
  {
  }

  /** The sessions that a connection has in the room. */
  method SessionsOf(room: MediaRoom, conn: Conn) returns (sessions: seq<MediaSession>)
    ensures forall s :: s in sessions <==> s in room.peers.Values && s.conn == conn
  {
    sessions := [];
    var remaining := room.peers.Values;
    while remaining != {}
      invariant remaining <= room.peers.Values
      invariant forall s :: s in sessions <==> s in room.peers.Values && s !in remaining && s.conn == conn
      decreases remaining
    {
      var session := AnyOf(remaining);
      remaining := remaining - {session};
      if session.conn == conn {
        sessions := sessions + [session];
      }
    }
  }

  lemma WhoIs(room: MediaRoom)
    ensures forall u :: u in Who(room) <==> u in room.peers
    ensures forall u :: u in room.peers ==> Who(room)[u].conn == room.peers[u].conn
  {
  }

  method RemoveNext(room: MediaRoom, conn: Conn, remaining: set<Uid>) returns (left: set<Uid>)
    requires room.Settled() && remaining != {}
    requires forall u :: u in remaining <==> u in room.peers && room.peers[u].conn == conn
    modifies room, room.peers.Values`outgoingVideo, room.peers.Values`outgoingAudio
    ensures room.Settled() && room.peers.Values <= old(room.peers.Values) && left < remaining
    ensures forall u :: u in left <==> u in room.peers && room.peers[u].conn == conn
    ensures forall u :: u in room.peers ==> u in old(room.peers) && room.peers[u] == old(room.peers[u])
    ensures AfterDisconnect(Who(room), conn) == AfterDisconnect(old(Who(room)), conn)
  {
    hide Mesh, NegotiatedBut;
    var u := AnyOf(remaining);
    RemoveOne(Who(room), u, conn);
    RemoveMember(room, u, room.peers[u].instanceId);
    left := remaining - {u};
  }

  method RegisterTrack(room: MediaRoom, uid: Uid, media: Media) returns (ghost failed: set<Uid>)
    requires room.Settled()
    modifies room
    modifies room.peers.Values`outgoingVideo, room.peers.Values`outgoingAudio, room.peers.Values`broken
    modifies room.peers.Values`waitingRemoteAnswer, room.peers.Values`negotiationPending
    modifies room.peers.Values`haveLocalOffer, room.peers.Values`offered
    ensures room.Settled() && Who(room) == old(Who(room)) - failed
    ensures room.peers.Values <= old(room.peers.Values)
    ensures forall u :: u in room.peers ==> u in old(room.peers) && room.peers[u] == old(room.peers[u])
    ensures forall u :: u in failed <==> u in old(room.peers) && old(room.peers[u]).broken
  {
    hide Mesh, NegotiatedBut, MediaSession.Negotiating, MediaSession.Covered;
    ghost var before := Who(room);
    room.RegisterPublisherTrack(uid, media);
    ghost var after := Who(room);
    failed := before.Keys - after.Keys;
    assert forall u: Uid :: u in after ==> u in before && after[u] == before[u];
    Rest(before, after);
    forall s | s in room.peers.Values
      ensures s in old(room.peers.Values)
    {
      var u := KeyOf(room.peers, s);
    }
  }

  method Ask(room: MediaRoom, uid: Uid, media: Media)
    returns (requests: seq<TrackRequest>, toNegotiate: seq<MediaSession>)
    requires room.Settled()
    modifies room
    ensures BeingGiven(room, requests, toNegotiate) && room.peers == old(room.peers) && Who(room) == old(Who(room))
  {
    hide Mesh, MeshBut, NegotiatedBut;
    requests, toNegotiate := room.RegisterLocked(uid, media);
    MoreDue(room.peers, SetOf(toNegotiate));
  }

  /** Carries out the next request. */
  method Give(room: MediaRoom, requests: seq<TrackRequest>, toNegotiate: seq<MediaSession>) returns (done: bool)
    requires BeingGiven(room, requests, toNegotiate) && requests != []
    modifies room.peers.Values
    ensures done ==> BeingGiven(room, requests[1..], toNegotiate)
    ensures !done ==> BeingDropped(room, requests[0], requests[1..], toNegotiate)
  {
    hide Mesh, MeshBut, NegotiatedBut, MediaRoom.Refused;
    var rest := requests[1..];
    assert requests == [requests[0]] + rest;
    ValuesAppend([requests[0]], rest);
    assert Values([requests[0]]) == {requests[0].Value()};
    assert Values(requests) == Values(rest) + {requests[0].Value()};
    assert forall r :: r in rest ==> r in requests;
    done := room.AddRequested(requests[0], Values(rest), SetOf(toNegotiate));
  }

  /** The receiver of a refused track is removed. */
  method DropNext(room: MediaRoom, r: TrackRequest, requests: seq<TrackRequest>, toNegotiate: seq<MediaSession>)
    requires BeingDropped(room, r, requests, toNegotiate)
    modifies room, room.peers.Values
    ensures BeingGiven(room, requests, toNegotiate) && room.peers.Values <= old(room.peers.Values)
    ensures room.peers == old(room.peers) - {r.session.uid}
    ensures Who(room) == AfterRemoval(old(Who(room)), r.session.uid, r.session.instanceId)
  {
    hide Mesh, MeshBut, NegotiatedBut, MediaRoom.Refused;
    room.RefusedIsBroken(r, Values(requests), SetOf(toNegotiate));
    room.DropRefused(r, Values(requests), SetOf(toNegotiate));
  }

  /** The next session is told to negotiate. */
  method Inform(room: MediaRoom, toNegotiate: seq<MediaSession>) returns (done: bool)
    requires BeingTold(room, toNegotiate) && toNegotiate != []
    modifies room.peers.Values
    ensures done ==> BeingTold(room, toNegotiate[1..])
    ensures !done ==> BeingLeft(room, toNegotiate[0], toNegotiate[1..])
  {
    hide Mesh, NegotiatedBut, MediaRoom.Broke;
    var rest := toNegotiate[1..];
    assert SetOf(toNegotiate) == SetOf(rest) + {toNegotiate[0]};
    assert forall s :: s in rest ==> s in toNegotiate;
    done := room.TellOne(toNegotiate[0], SetOf(rest));
  }

  /** A session that could not negotiate is removed. */
  method LeaveNext(room: MediaRoom, session: MediaSession, toNegotiate: seq<MediaSession>)
    requires BeingLeft(room, session, toNegotiate)
    modifies room, room.peers.Values
    ensures BeingTold(room, toNegotiate) && room.peers.Values <= old(room.peers.Values)
    ensures room.peers == old(room.peers) - {session.uid}
    ensures Who(room) == AfterRemoval(old(Who(room)), session.uid, session.instanceId)
  {
    hide Mesh, NegotiatedBut, MediaRoom.Broke;
    room.BrokeIsBroken(session, SetOf(toNegotiate));
    room.DropBroken(session, SetOf(toNegotiate));
  }

  lemma AllGiven(room: MediaRoom, toNegotiate: seq<MediaSession>)
    requires BeingGiven(room, [], toNegotiate)
    ensures BeingTold(room, toNegotiate)
  {
    assert Values([]) == {};
    NothingLeft(room.View(), room.Subs());
  }

  lemma AllTold(room: MediaRoom)
    requires BeingTold(room, [])
    ensures room.Settled()
  {
    assert SetOf<MediaSession>([]) == {};
  }

  lemma NobodyIn(room: MediaRoom)
    ensures Who(room) == map[] <==> room.peers == map[]
  {
    if room.peers != map[] {
      var u := AnyKey(room.peers);
      assert u in Who(room);
    }
  }

  lemma AnyKey<K, V>(entries: map<K, V>) returns (key: K)
    requires entries != map[]
    ensures key in entries
  {
    key :| key in entries;
  }

  lemma ValuesWith<K, V>(entries: map<K, V>, key: K, value: V)
    requires key !in entries
    ensures entries[key := value].Values == entries.Values + {value}
  {
    var more := entries[key := value];
    forall v | v in entries.Values + {value}
      ensures v in more.Values
    {
      if v in entries.Values {
        var k := KeyOf(entries, v);
        assert more[k] == v;
      } else {
        assert more[key] == v;
      }
    }
  }

  /** The media server's logic object: the index of its rooms, changed by the handlers of the room workers;
      `active` is what the workers that are in a handler keep to themselves. */
  class LogicSystem {
    var rooms: map<Meeting, MediaRoom>
    var nextInstance: Instance
    var active: map<Meeting, Phase>

    ghost function PhaseOf(m: Meeting): Phase
      reads this`active
    {
      if m in active then active[m] else Idle
    }

    ghost function View(): Rooms
      reads this`rooms, rooms.Values
    {
      map m | m in rooms :: Who(rooms[m])
    }

    ghost function Sessions(): set<MediaSession>
      reads this`rooms, rooms.Values
    {
      set r, s | r in rooms.Values && s in r.peers.Values :: s
    }

    /** No session waits for an answer to an Offer that was given up. */
    ghost predicate NoneStalled()
      reads this`rooms, rooms.Values, Sessions()
    {
      forall s :: s in Sessions() ==> !s.stalled
    }

    /** Rooms share nothing. */
    ghost predicate Apart()
      reads this`rooms, rooms.Values
    {
      forall m, n :: m in rooms && n in rooms && m != n ==>
        rooms[m] != rooms[n] && rooms[m].peers.Values !! rooms[n].peers.Values
    }

    ghost predicate Numbered()
      reads this`rooms, this`nextInstance, rooms.Values
    {
      nextInstance > 0 && forall m, u :: m in rooms && u in rooms[m].peers ==>
        0 < rooms[m].peers[u].instanceId < nextInstance
    }

    /** What holds of all rooms but that of meeting m: each is as its handler left it. */
    ghost predicate SoundApartFrom(m: Meeting)
      reads this, rooms.Values, Sessions()
    {
      && Apart() && Numbered() && active.Keys - {m} <= rooms.Keys
      && forall k :: k in rooms && k != m ==> InPhase(rooms[k], PhaseOf(k))
    }

    /** What holds between any two steps: each room is as its handler left it, and where no handler runs it
        is settled and not empty. */
    ghost predicate Valid()
      reads this, rooms.Values, Sessions()
    {
      && Apart() && Numbered() && active.Keys <= rooms.Keys
      && forall k :: k in rooms ==> InPhase(rooms[k], PhaseOf(k))
    }

    lemma SettledWhereIdle()
      requires Valid()
      ensures forall m :: m in rooms && m !in active ==> rooms[m].Settled() && rooms[m].peers != map[]
    {
      hide MediaRoom.Settled, MediaRoom.SettledBut, BeingGiven, BeingTold, BeingDropped, BeingLeft;
      forall m | m in rooms && m !in active
        ensures rooms[m].Settled() && rooms[m].peers != map[]
      {
        assert InPhase(rooms[m], PhaseOf(m));
      }
    }

    constructor ()
      ensures nextInstance == 1
      ensures Valid() && NoneStalled() && View() == map[] && fresh(rooms.Values) && fresh(Sessions()) && active == map[]
    {
      rooms, nextInstance, active := map[], 1, map[];
    }

    /** The room index and its values say the same. */
    lemma LookUp(m: Meeting, uid: Uid)
      ensures m in rooms <==> m in View()
      ensures m in rooms ==> rooms[m] in rooms.Values && rooms[m].peers.Values <= Sessions()
      ensures m in rooms ==> View()[m] == Who(rooms[m]) && (uid in rooms[m].peers <==> uid in View()[m])
      ensures m in rooms && uid in rooms[m].peers ==>
        && rooms[m].peers[uid] in rooms[m].peers.Values
        && var s := rooms[m].peers[uid]; View()[m][uid] == Sess(s.instanceId, s.signal, s.conn)
    {
    }

    lemma ValidAt(m: Meeting)
      requires m !in active
      ensures Valid() && m in rooms ==> SoundApartFrom(m) && rooms[m].Settled() && Who(rooms[m]) != map[]
      ensures Valid() ==> View() == Indexed(View(), m, MembersOf(View(), m))
      ensures m in rooms && SoundApartFrom(m) && rooms[m].Settled() && Who(rooms[m]) != map[] ==> Valid()
    {
      hide MediaRoom.Settled, MediaRoom.SettledBut, BeingGiven, BeingTold, BeingDropped, BeingLeft;
      if Valid() && m in rooms {
        var u := AnyKey(rooms[m].peers);
        assert u in Who(rooms[m]);
      }
      assert m in rooms && Who(rooms[m]) != map[] ==> rooms[m].peers != map[];
    }

    /** The room of the meeting, made if there is none. */
    method RoomFor(m: Meeting) returns (room: MediaRoom)
      requires Valid() && m !in active
      modifies this`rooms
      ensures m in rooms && rooms[m] == room && room.Settled() && SoundApartFrom(m)
      ensures View() == old(View())[m := MembersOf(old(View()), m)]
      ensures Sessions() == old(Sessions()) && fresh(rooms.Values - old(rooms.Values))
      ensures old(NoneStalled()) ==> NoneStalled()
    {
      hide Valid, SoundApartFrom, View, Who, Sessions, MediaRoom.Settled;
      LookUp(m, 0);
      ValidAt(m);
      if m in rooms {
        room := rooms[m];
      } else {
        room := Index(m);
      }
    }

    method Index(m: Meeting) returns (room: MediaRoom)
      requires Valid() && m !in rooms && m !in active
      modifies this`rooms
      ensures m in rooms && rooms[m] == room && room.Settled() && SoundApartFrom(m)
      ensures View() == old(View())[m := map[]] && fresh(room)
      ensures Sessions() == old(Sessions()) && rooms.Values == old(rooms.Values) + {room}
      ensures old(NoneStalled()) ==> NoneStalled()
    {
      room := new MediaRoom();
      hide MediaRoom.Settled, MediaRoom.SettledBut, View, Who, NoneStalled;
      hide BeingGiven, BeingTold, BeingDropped, BeingLeft;
      Insert(m, room);
    }

    method Insert(m: Meeting, room: MediaRoom)
      requires Valid() && m !in rooms && m !in active && room !in rooms.Values && room.peers == map[]
      modifies this`rooms
      ensures m in rooms && rooms[m] == room && SoundApartFrom(m)
      ensures View() == old(View())[m := map[]]
      ensures Sessions() == old(Sessions()) && rooms.Values == old(rooms.Values) + {room}
      ensures old(NoneStalled()) ==> NoneStalled()
    {
      hide InPhase, View, Who;
      ValuesWith(rooms, m, room);
      rooms := rooms[m := room];
      OneRoomAdded(m);
    }

    twostate lemma OneRoomAdded(m: Meeting)
      requires m in rooms && m !in old(rooms) && rooms == old(rooms)[m := rooms[m]] && rooms[m].peers == map[]
      requires rooms.Values == old(rooms.Values) + {rooms[m]}
      requires forall r :: r in old(rooms.Values) ==> unchanged(r)
      ensures View() == old(View())[m := map[]] && Sessions() == old(Sessions())
    {
      forall k | k in old(rooms)
        ensures k in rooms && rooms[k] == old(rooms[k]) && unchanged(rooms[k])
      {
        assert old(rooms[k]) in old(rooms.Values);
      }
      forall s
        ensures s in Sessions() <==> s in old(Sessions())
      {
        assert forall r :: r in old(rooms.Values) ==> r.peers == old(r.peers);
      }
    }

    /** An empty room leaves the index. */
    method DropIfEmpty(m: Meeting)
      requires m in rooms && rooms[m].Settled() && SoundApartFrom(m) && m !in active
      modifies this`rooms
      ensures Valid() && View() == Indexed(old(View()), m, old(View())[m])
      ensures rooms.Values <= old(rooms.Values) && Sessions() <= old(Sessions())
      ensures old(NoneStalled()) ==> NoneStalled()
    {
      hide MediaRoom.Settled;
      ghost var members := Who(rooms[m]);
      assert members == map[] <==> rooms[m].peers == map[] by { NobodyIn(rooms[m]); }
      if |rooms[m].peers| == 0 {
        Erase(m);
      } else {
        assert View() == View()[m := members];
      }
    }

    method Erase(m: Meeting)
      requires SoundApartFrom(m) && m !in active
      modifies this`rooms
      ensures Valid() && View() == old(View()) - {m}
      ensures rooms.Values <= old(rooms.Values) && Sessions() <= old(Sessions())
      ensures old(NoneStalled()) ==> NoneStalled()
    {
      hide InPhase, Who;
      rooms := rooms - {m};
    }

    /** Only the room of meeting m, its sessions and new ones have changed. */
    twostate lemma OneRoomChanged(m: Meeting)
      requires old(SoundApartFrom(m)) && m in rooms && rooms == old(rooms) && active == old(active) && Numbered()
      requires forall k :: k in rooms && k != m ==>
        unchanged(rooms[k]) && forall s :: s in rooms[k].peers.Values ==> unchanged(s)
      requires forall s :: s in rooms[m].peers.Values ==> s in old(rooms[m].peers.Values) || fresh(s)
      ensures SoundApartFrom(m)
      ensures View() == old(View())[m := Who(rooms[m])]
      ensures forall s :: s in Sessions() ==> s in old(Sessions()) || fresh(s)
    {
      forall k | k in rooms && k != m
        ensures InPhase(rooms[k], PhaseOf(k))
      {
        assert PhaseOf(k) == old(PhaseOf(k));
        assert old(InPhase(rooms[k], PhaseOf(k)));
      }
      forall s | s in Sessions()
        ensures s in old(Sessions()) || fresh(s)
      {
        var r :| r in rooms.Values && s in r.peers.Values;
        var k := KeyOf(rooms, r);
        assert k != m ==> r.peers == old(r.peers);
      }
    }

    twostate lemma NoneStallsElsewhere(m: Meeting)
      requires m in rooms && rooms == old(rooms)
      requires forall k :: k in rooms && k != m ==>
        unchanged(rooms[k]) && forall s :: s in rooms[k].peers.Values ==> unchanged(s)
      ensures old(NoneStalled()) && (forall s :: s in rooms[m].peers.Values ==> !s.stalled) ==> NoneStalled()
    {
      forall s | s in Sessions() && s !in rooms[m].peers.Values
        ensures s in old(Sessions()) && s.stalled == old(s.stalled)
      {
        var r :| r in rooms.Values && s in r.peers.Values;
        var k := KeyOf(rooms, r);
      }
    }

    /** Removes a peer from the room of meeting m. */
    method RemoveFrom(m: Meeting, uid: Uid, instance: Instance)
      requires m in rooms && SoundApartFrom(m)
      requires rooms[m].Settled() || (rooms[m].SettledBut(uid) && Drops(Who(rooms[m]), uid, instance))
      modifies rooms[m], rooms[m].peers.Values`outgoingVideo, rooms[m].peers.Values`outgoingAudio
      ensures SoundApartFrom(m) && rooms[m].Settled()
      ensures View() == old(View())[m := AfterRemoval(old(View())[m], uid, instance)]
      ensures Sessions() <= old(Sessions())
      ensures old(NoneStalled()) ==> NoneStalled()
    {
      hide MediaRoom.Settled, MediaRoom.SettledBut, BeingGiven, BeingTold, BeingDropped, BeingLeft, Who;
      RemoveMember(rooms[m], uid, instance);
      OneRoomChanged(m);
      NoneStallsElsewhere(m);
    }

    /** Removes the session's peer unless the uid belongs to another instance by now, and drops the
        room from the index when nobody is left. */
    method RemoveSession(m: Meeting, uid: Uid, instance: Instance)
      requires m in rooms && SoundApartFrom(m) && m !in active
      requires rooms[m].Settled() || (rooms[m].SettledBut(uid) && Drops(Who(rooms[m]), uid, instance))
      modifies this`rooms, rooms[m], rooms[m].peers.Values`outgoingVideo, rooms[m].peers.Values`outgoingAudio
      ensures Valid() && nextInstance == old(nextInstance)
      ensures var members, next := old(View())[m], MembersOf(View(), m);
        next == if instance == 0 || (uid in members && members[uid].instance == instance) then members - {uid}
                else members
      ensures View() == Indexed(old(View()), m, AfterRemoval(old(View())[m], uid, instance))
      ensures rooms.Values <= old(rooms.Values) && Sessions() <= old(Sessions())
      ensures old(NoneStalled()) ==> NoneStalled()
    {
      hide Valid, SoundApartFrom, MediaRoom.Settled, MediaRoom.SettledBut, View, Who, Sessions;
      RemoveFrom(m, uid, instance);
      DropIfEmpty(m);
    }

    /** Passes an Offer, Answer or candidate to a member's session. */
    method Tell(m: Meeting, uid: Uid, kind: Kind) returns (done: bool)
      requires Valid() && m in rooms && m !in active && uid in rooms[m].peers && !kind.Leave?
      modifies rooms[m].peers[uid]
      ensures done ==> Valid()
      ensures !done ==> SoundApartFrom(m) && rooms[m].SettledBut(uid)
      ensures done ==>
        m in rooms && uid in rooms[m].peers && rooms[m].peers[uid] == old(rooms[m].peers[uid]) &&
        Takes(kind, old(Flags(rooms[m].peers[uid])), Flags(rooms[m].peers[uid]))
      ensures old(NoneStalled()) && (kind.Offer? ==> !old(rooms[m].peers[uid].waitingRemoteAnswer)) ==> NoneStalled()
    {
      hide MediaRoom.Settled, MediaRoom.SettledBut;
      done := Deliver(rooms[m], uid, kind);
      OneRoomChanged(m);
      NoneStallsElsewhere(m);
    }

    /** A new session for the uid enters the room. */
    method Enter(m: Meeting, uid: Uid, conn: Conn, signal: SignalId)
      requires m in rooms && SoundApartFrom(m) && m !in active && rooms[m].Settled() && uid !in rooms[m].peers
      modifies this`nextInstance, rooms[m]
      ensures Valid() && nextInstance == old(nextInstance) + 1
      ensures View() == old(View())[m := old(View())[m][uid := Sess(old(nextInstance), signal, conn)]]
      ensures uid in rooms[m].peers && !rooms[m].peers[uid].waitingRemoteAnswer
      ensures old(NoneStalled()) ==> NoneStalled()
      ensures fresh(rooms[m].peers.Values - old(rooms[m].peers.Values))
      ensures forall s :: s in Sessions() ==> s in old(Sessions()) || fresh(s)
    {
      hide Valid, SoundApartFrom, View, Sessions, NoneStalled, MediaRoom.Settled;
      EnterRoom(m, uid, conn, signal);
      LookUp(m, uid);
      ValidAt(m);
    }

    method EnterRoom(m: Meeting, uid: Uid, conn: Conn, signal: SignalId)
      requires m in rooms && SoundApartFrom(m) && rooms[m].Settled() && uid !in rooms[m].peers
      modifies this`nextInstance, rooms[m]
      ensures rooms[m].Settled() && SoundApartFrom(m) && nextInstance == old(nextInstance) + 1
      ensures View() == old(View())[m := old(View())[m][uid := Sess(old(nextInstance), signal, conn)]]
      ensures uid in rooms[m].peers && !rooms[m].peers[uid].waitingRemoteAnswer
      ensures old(NoneStalled()) ==> NoneStalled()
      ensures fresh(rooms[m].peers.Values - old(rooms[m].peers.Values))
      ensures forall s :: s in Sessions() ==> s in old(Sessions()) || fresh(s)
    {
      hide MediaRoom.Settled, MediaRoom.SettledBut, BeingGiven, BeingTold, BeingDropped, BeingLeft, Who;
      var session := new MediaSession(uid, nextInstance, conn, signal);
      nextInstance := nextInstance + 1;
      AddMember(rooms[m], session);
      OneRoomChanged(m);
      NoneStallsElsewhere(m);
    }

    /** The room for an Offer, without a session of another origin under its uid. */
    method Prepare(m: Meeting, conn: Conn, uid: Uid, signal: SignalId)
      requires Valid() && m !in active
      modifies this`rooms, rooms.Values, Sessions()`outgoingVideo, Sessions()`outgoingAudio
      ensures m in rooms && rooms[m].Settled() && SoundApartFrom(m)
      ensures View() == old(View())[m := AfterPreparing(MembersOf(old(View()), m), uid, signal, conn)]
      ensures fresh(rooms.Values - old(rooms.Values)) && Sessions() <= old(Sessions())
      ensures old(NoneStalled()) ==> NoneStalled()
    {
      hide Valid, SoundApartFrom, MediaRoom.Settled, View, Who, Sessions;
      LookUp(m, uid);
      ValidAt(m);
      var room := RoomFor(m);
      LookUp(m, uid);
      ValidAt(m);
      if uid in room.peers && (room.peers[uid].signal != signal || room.peers[uid].conn != conn) {
        RemoveFrom(m, uid, 0);
      }
    }

    /** The member's session handles the signal, or breaks over it and is removed. */
    method Serve(m: Meeting, uid: Uid, kind: Kind) returns (done: bool)
      requires Valid() && m in rooms && m !in active && uid in rooms[m].peers && !kind.Leave?
      modifies this`rooms, rooms[m], rooms[m].peers.Values
      ensures Valid() && nextInstance == old(nextInstance)
      ensures View() == if done then old(View()) else Indexed(old(View()), m, old(View())[m] - {uid})
      ensures done ==>
        m in rooms && uid in rooms[m].peers && rooms[m].peers[uid] == old(rooms[m].peers[uid]) &&
        Takes(kind, old(Flags(rooms[m].peers[uid])), Flags(rooms[m].peers[uid]))
      ensures old(NoneStalled()) && (kind.Offer? ==> !old(rooms[m].peers[uid].waitingRemoteAnswer)) ==> NoneStalled()
      ensures rooms.Values <= old(rooms.Values) && Sessions() <= old(Sessions())
    {
      hide Valid, SoundApartFrom, MediaRoom.Settled, MediaRoom.SettledBut, View, Sessions;
      LookUp(m, uid);
      ValidAt(m);
      done := Tell(m, uid, kind);
      if !done {
        RemoveSession(m, uid, rooms[m].peers[uid].instanceId);
      }
    }

    method HandleOffer(m: Meeting, conn: Conn, uid: Uid, signal: SignalId) returns (ghost o: Outcome)
      requires Valid() && m !in active
      modifies this`rooms, this`nextInstance, rooms.Values, Sessions()
      ensures Valid() && nextInstance >= old(nextInstance)
      ensures var members, next := MembersOf(old(View()), m), MembersOf(View(), m);
        var same := uid in members && members[uid].signal == signal && members[uid].conn == conn;
        && (uid in next <==> !o.throws && (same || !o.constructionThrows))
        && (uid in next && same ==> next[uid] == members[uid])
        && (uid in next && !same ==>
              next[uid].instance == old(nextInstance) && next[uid].signal == signal && next[uid].conn == conn)
        && forall u :: u != uid ==> (u in next <==> u in members) && (u in members ==> next[u] == members[u])
      ensures View() == Indexed(old(View()), m,
        AfterOffer(MembersOf(old(View()), m), uid, signal, conn, old(nextInstance), o))
      ensures old(NoneStalled()) && !IsFrom(MembersOf(old(View()), m), uid, signal, conn) ==> NoneStalled()
      ensures uid in MembersOf(View(), m) ==>
        m in rooms && uid in rooms[m].peers && rooms[m].peers[uid].initialAnswerCreated &&
        !rooms[m].peers[uid].negotiationPending
      ensures fresh(rooms.Values - old(rooms.Values))
      ensures forall s :: s in Sessions() ==> s in old(Sessions()) || fresh(s)
    {
      hide Valid, SoundApartFrom, MediaRoom.Settled, View, Who, Sessions;
      Prepare(m, conn, uid, signal);
      LookUp(m, uid);
      ValidAt(m);
      if uid in rooms[m].peers {
        var done := Serve(m, uid, Offer);
        o := Outcome(false, !done, {});
      } else {
        o := Begin(m, conn, uid, signal);
        OfferMeans(old(View()), m, conn, uid, signal, old(nextInstance), o);
      }
    }

    /** A new session for the Offer; its construction may throw, and it may break over the Offer. */
    method Begin(m: Meeting, conn: Conn, uid: Uid, signal: SignalId) returns (ghost o: Outcome)
      requires m in rooms && SoundApartFrom(m) && m !in active && rooms[m].Settled() && uid !in rooms[m].peers
      modifies this`rooms, this`nextInstance, rooms[m], rooms[m].peers.Values
      ensures Valid() && nextInstance >= old(nextInstance)
      ensures var members := old(View())[m];
        View() == Indexed(old(View()), m,
          if o.constructionThrows || o.throws then members
          else members[uid := Sess(old(nextInstance), signal, conn)])
      ensures uid in MembersOf(View(), m) ==>
        m in rooms && uid in rooms[m].peers && rooms[m].peers[uid].initialAnswerCreated &&
        !rooms[m].peers[uid].negotiationPending
      ensures old(NoneStalled()) ==> NoneStalled()
      ensures rooms.Values <= old(rooms.Values) && forall s :: s in Sessions() ==> s in old(Sessions()) || fresh(s)
    {
      hide Valid, SoundApartFrom, MediaRoom.Settled, View, Who, Sessions;
      LookUp(m, uid);
      var constructionThrows: bool := *;
      if constructionThrows {
        o := Outcome(true, false, {});
        DropIfEmpty(m);
        return;
      }
      ghost var members := View()[m];
      Enter(m, uid, conn, signal);
      var done := Serve(m, uid, Offer);
      o := Outcome(false, !done, {});
      PutAndTake(members, uid, Sess(old(nextInstance), signal, conn));
    }

    /** HandleAnswer and HandleCandidate differ only in the library call that may throw. */
    method HandleRemote(m: Meeting, conn: Conn, uid: Uid, signal: SignalId, kind: Kind) returns (ghost o: Outcome)
      requires Valid() && m !in active && (kind.Answer? || kind.Candidate?)
      modifies this`rooms, rooms.Values, Sessions()
      ensures Valid()
      ensures var members, next := MembersOf(old(View()), m), MembersOf(View(), m);
        var own := uid in members && members[uid].signal == signal && members[uid].conn == conn;
        && (!own ==> View() == old(View()) && forall s :: s in old(Sessions()) ==> unchanged(s))
        && (own ==> next == if o.throws then members - {uid} else members)
      ensures var members := MembersOf(old(View()), m);
        uid in members && members[uid].signal == signal && members[uid].conn == conn && !o.throws ==>
          m in rooms && uid in rooms[m].peers && rooms[m].peers[uid] == old(rooms[m].peers[uid]) &&
          Takes(kind, old(Flags(rooms[m].peers[uid])), Flags(rooms[m].peers[uid]))
      ensures View() == Indexed(old(View()), m, AfterRemote(MembersOf(old(View()), m), uid, signal, conn, o))
      ensures rooms.Values <= old(rooms.Values) && Sessions() <= old(Sessions())
      ensures old(NoneStalled()) ==> NoneStalled()
    {
      hide Valid, SoundApartFrom, MediaRoom.Settled, View, Who, Sessions;
      LookUp(m, uid);
      ValidAt(m);
      o := Outcome(false, false, {});
      if m !in rooms || uid !in rooms[m].peers || rooms[m].peers[uid].signal != signal ||
         rooms[m].peers[uid].conn != conn {
        return;
      }
      var done := Serve(m, uid, kind);
      o := o.(throws := !done);
    }

    method HandleLeave(m: Meeting, conn: Conn, uid: Uid, signal: SignalId)
      requires Valid() && m !in active
      modifies this`rooms, rooms.Values, Sessions()`outgoingVideo, Sessions()`outgoingAudio
      ensures Valid()
      ensures var members, next := MembersOf(old(View()), m), MembersOf(View(), m);
        var own := uid in members && members[uid].signal == signal && members[uid].conn == conn;
        && (!own ==> View() == old(View()) && forall s :: s in old(Sessions()) ==> unchanged(s))
        && (own ==> next == members - {uid})
      ensures View() == Indexed(old(View()), m, AfterLeave(MembersOf(old(View()), m), uid, signal, conn))
      ensures rooms.Values <= old(rooms.Values) && Sessions() <= old(Sessions())
      ensures old(NoneStalled()) ==> NoneStalled()
    {
      hide Valid, SoundApartFrom, MediaRoom.Settled, View, Who, Sessions;
      LookUp(m, uid);
      ValidAt(m);
      if m !in rooms || uid !in rooms[m].peers || rooms[m].peers[uid].signal != signal ||
         rooms[m].peers[uid].conn != conn {
        return;
      }
      RemoveSession(m, uid, rooms[m].peers[uid].instanceId);
    }

    /** The members that fail are those whose session broke while the room registered the track. */
    method HandlePublisherTrackReady(m: Meeting, uid: Uid, instance: Instance, media: Media, stopped: set<Conn>)
      returns (ghost o: Outcome)
      requires Valid() && m !in active
      modifies this`rooms, rooms.Values
      modifies Sessions()`outgoingVideo, Sessions()`outgoingAudio, Sessions()`broken
      modifies Sessions()`waitingRemoteAnswer, Sessions()`negotiationPending
      modifies Sessions()`haveLocalOffer, Sessions()`offered
      ensures Valid()
      ensures var members := MembersOf(old(View()), m);
        !(uid in members && members[uid].instance == instance && members[uid].conn !in stopped) ==>
          View() == old(View()) && forall s :: s in old(Sessions()) ==> unchanged(s)
      ensures var members := MembersOf(old(View()), m);
        View() == Indexed(old(View()), m,
          if Executes(members, TrackReady(uid, instance, media), stopped)
          then AfterReady(members, uid, instance, o) else members)
      ensures Executes(MembersOf(old(View()), m), TrackReady(uid, instance, media), stopped) ==>
        forall u :: u in o.failed <==> u in old(rooms[m].peers) && old(rooms[m].peers[u]).broken
      ensures rooms.Values <= old(rooms.Values) && Sessions() <= old(Sessions())
      ensures old(NoneStalled()) ==> NoneStalled()
    {
      hide Valid, SoundApartFrom, MediaRoom.Settled, View, Who, Sessions;
      LookUp(m, uid);
      ValidAt(m);
      o := Outcome(false, false, {});
      if m !in rooms || uid !in rooms[m].peers || rooms[m].peers[uid].instanceId != instance ||
         rooms[m].peers[uid].conn in stopped {
        return;
      }
      ghost var failed := RegisterIn(m, uid, media);
      o := o.(failed := failed);
      DropIfEmpty(m);
    }

    method RegisterIn(m: Meeting, uid: Uid, media: Media) returns (ghost failed: set<Uid>)
      requires Valid() && m !in active && m in rooms
      modifies rooms[m]
      modifies rooms[m].peers.Values`outgoingVideo, rooms[m].peers.Values`outgoingAudio, rooms[m].peers.Values`broken
      modifies rooms[m].peers.Values`waitingRemoteAnswer, rooms[m].peers.Values`negotiationPending
      modifies rooms[m].peers.Values`haveLocalOffer, rooms[m].peers.Values`offered
      ensures SoundApartFrom(m) && rooms[m].Settled()
      ensures View() == old(View())[m := old(View())[m] - failed] && Sessions() <= old(Sessions())
      ensures forall u :: u in failed <==> u in old(rooms[m].peers) && old(rooms[m].peers[u]).broken
      ensures old(NoneStalled()) ==> NoneStalled()
    {
      hide MediaRoom.Settled, MediaRoom.SettledBut, BeingGiven, BeingTold, BeingDropped, BeingLeft, Who;
      failed := RegisterTrack(rooms[m], uid, media);
      OneRoomChanged(m);
      NoneStallsElsewhere(m);
    }

    /** The room leaves the index with its last member. */
    method HandleSignalDisconnected(m: Meeting, conn: Conn)
      requires Valid() && m !in active
      modifies this`rooms, rooms.Values, Sessions()`outgoingVideo, Sessions()`outgoingAudio
      ensures Valid()
      ensures var members, next := MembersOf(old(View()), m), MembersOf(View(), m);
        && (forall u :: u in next <==> u in members && members[u].conn != conn)
        && (forall u :: u in next ==> next[u] == members[u])
      ensures View() == Indexed(old(View()), m, AfterDisconnect(MembersOf(old(View()), m), conn))
      ensures rooms.Values <= old(rooms.Values) && Sessions() <= old(Sessions())
      ensures old(NoneStalled()) ==> NoneStalled()
    {
      hide MediaRoom.Settled, Valid, SoundApartFrom, View, Sessions;
      LookUp(m, 0);
      ValidAt(m);
      if m !in rooms {
        NobodyLeft(map[], conn);
        return;
      }
      DisconnectIn(m, conn);
      DropIfEmpty(m);
    }

    method DisconnectIn(m: Meeting, conn: Conn)
      requires m in rooms && SoundApartFrom(m) && rooms[m].Settled()
      modifies rooms[m], rooms[m].peers.Values`outgoingVideo, rooms[m].peers.Values`outgoingAudio
      ensures SoundApartFrom(m) && rooms[m].Settled()
      ensures View() == old(View())[m := AfterDisconnect(old(View())[m], conn)] && Sessions() <= old(Sessions())
      ensures old(NoneStalled()) ==> NoneStalled()
    {
      hide MediaRoom.Settled, MediaRoom.SettledBut, BeingGiven, BeingTold, BeingDropped, BeingLeft, Who;
      RemoveConnection(rooms[m], conn);
      OneRoomChanged(m);
      NoneStallsElsewhere(m);
    }

    /** What the worker of the room does with a dequeued event. */
    method HandleRoomEvent(m: Meeting, e: Event, stopped: set<Conn>) returns (ghost o: Outcome)
      requires Valid() && m !in active
      modifies this`rooms, this`nextInstance, rooms.Values, Sessions()
      ensures Valid() && nextInstance >= old(nextInstance)
      ensures forall k :: k != m ==> MembersOf(View(), k) == MembersOf(old(View()), k)
      ensures (e.Signal? && e.conn in stopped) || (e.Disconnected? && e.conn !in stopped) || e.LocalSignal? ==>
        View() == old(View())
      ensures View() == AfterEvent(old(View()), m, e, stopped, old(nextInstance), o)
      ensures old(NoneStalled()) && !Repeats(MembersOf(old(View()), m), e) ==> NoneStalled()
      ensures fresh(rooms.Values - old(rooms.Values))
      ensures forall s :: s in Sessions() ==> s in old(Sessions()) || fresh(s)
    {
      hide Valid, View, Sessions;
      o := Outcome(false, false, {});
      ValidAt(m);
      match e {
        case Signal(conn, kind, uid, signal) =>
          if conn in stopped {
            return;
          }
          match kind {
            case Offer => o := HandleOffer(m, conn, uid, signal);
            case Leave => HandleLeave(m, conn, uid, signal);
            case _ => o := HandleRemote(m, conn, uid, signal, kind);
          }
        case TrackReady(uid, instance, media) =>
          o := HandlePublisherTrackReady(m, uid, instance, media, stopped);
        case LocalSignal(_, _, _, _) =>
        case Disconnected(conn) =>
          if conn in stopped {
            HandleSignalDisconnected(m, conn);
          }
      }
    }

    // ---- The same handlers, step by step ----

    /** The worker of the room leaves it in this phase for now. */
    method Pause(m: Meeting, p: Phase)
      requires m in rooms && SoundApartFrom(m) && InPhase(rooms[m], p)
      modifies this`active
      ensures Valid() && active == old(active)[m := p]
      ensures m !in old(active) ==> active - {m} == old(active)
    {
      hide InPhase;
      active := active[m := p];
    }

    /** The worker goes on where it was. */
    method Unpause(m: Meeting) returns (p: Phase)
      requires Valid() && m in active
      modifies this`active
      ensures active == old(active) - {m} && p == old(active)[m]
      ensures m in rooms && SoundApartFrom(m) && InPhase(rooms[m], p)
    {
      hide InPhase;
      p := active[m];
      active := active - {m};
    }

    lemma ListedNow(m: Meeting, conn: Conn, sessions: seq<MediaSession>)
      requires m in rooms && rooms[m].Valid() && Numbered()
      requires forall s :: s in sessions <==> s in rooms[m].peers.Values && s.conn == conn
      ensures Listed(MembersOf(View(), m), conn, sessions)
    {
      var members := Who(rooms[m]);
      forall u | u in members && members[u].conn == conn
        ensures exists i :: 0 <= i < |sessions| && sessions[i].uid == u && sessions[i].instanceId == members[u].instance
      {
        assert rooms[m].peers[u] in sessions;
        var i :| 0 <= i < |sessions| && sessions[i] == rooms[m].peers[u];
      }
      forall i | 0 <= i < |sessions|
        ensures sessions[i].instanceId != 0
        ensures sessions[i].uid in members && members[sessions[i].uid].conn == conn
      {
        assert sessions[i] in sessions;
        var u := KeyOf(rooms[m].peers, sessions[i]);
      }
    }

    method BeginDisconnect(m: Meeting, conn: Conn)
      requires m in rooms && SoundApartFrom(m) && m !in active && rooms[m].Settled()
      modifies this`active
      ensures Valid() && active - {m} == old(active)
      ensures View() == old(View()) && PhaseOf(m).Disconnecting? && Listed(MembersOf(View(), m), conn, PhaseOf(m).todo)
    {
      hide MediaRoom.Settled, MediaRoom.SettledBut, BeingGiven, BeingTold, BeingDropped, BeingLeft, View;
      var sessions := SessionsOf(rooms[m], conn);
      OneRoomChanged(m);
      SettledIsValid(rooms[m]);
      ListedNow(m, conn, sessions);
      Pause(m, Disconnecting(sessions));
    }

    /** A dequeued event begins: the room is looked up under the lock of the index, and whether the event is
        executed is decided. */
    method BeginEvent(m: Meeting, e: Event, stopped: set<Conn>)
      requires Valid() && m !in active
      modifies this`rooms, this`active
      ensures Valid() && active - {m} == old(active)
      ensures forall k :: MembersOf(View(), k) == MembersOf(old(View()), k)
      ensures m in active ==> active[m] != Idle
      ensures Opens(e, MembersOf(View(), m), stopped, PhaseOf(m))
      ensures fresh(rooms.Values - old(rooms.Values)) && Sessions() == old(Sessions())
    {
      hide Valid, SoundApartFrom, Sessions, View, Who, MediaRoom.Settled, MediaRoom.SettledBut;
      LookUp(m, 0);
      ValidAt(m);
      match e {
        case Signal(conn, kind, uid, signal) =>
          if conn in stopped {
            return;
          }
          LookUp(m, uid);
          if kind == Offer {
            var room := RoomFor(m);
            Pause(m, Offering(conn, uid, signal));
          } else if m in rooms && uid in rooms[m].peers && rooms[m].peers[uid].signal == signal &&
                    rooms[m].peers[uid].conn == conn {
            Pause(m, if kind == Leave then Removing(uid, rooms[m].peers[uid].instanceId) else Telling(uid, kind));
          }
        case TrackReady(uid, instance, media) =>
          LookUp(m, uid);
          if m in rooms && uid in rooms[m].peers && rooms[m].peers[uid].instanceId == instance &&
             rooms[m].peers[uid].conn !in stopped {
            Pause(m, Registering(uid, media));
          }
        case LocalSignal(_, _, _, _) =>
        case Disconnected(conn) =>
          if conn in stopped && m in rooms {
            BeginDisconnect(m, conn);
          }
      }
    }

    lemma ResumeValid(m: Meeting)
      requires m in rooms && SoundApartFrom(m) && m !in active && InPhase(rooms[m], Idle)
      ensures Valid() && forall members, issued :: Moves(Idle, members, Idle, members, issued)
    {
      hide InPhase;
    }

    method ReplaceOld(m: Meeting, conn: Conn, uid: Uid, signal: SignalId)
      requires m in rooms && SoundApartFrom(m) && m !in active && rooms[m].Settled()
      modifies this`active, rooms[m], rooms[m].peers.Values
      ensures Valid() && active - {m} == old(active) && Before(PhaseOf(m), Offering(conn, uid, signal))
      ensures Sessions() <= old(Sessions())
      ensures m in active && active[m] != Idle
      ensures m in View() && View() == old(View())[m := View()[m]]
      ensures Moves(Offering(conn, uid, signal), old(View())[m], PhaseOf(m), View()[m], old(nextInstance))
    {
      hide Valid, SoundApartFrom, Sessions, View, Who, MediaRoom.Settled, MediaRoom.SettledBut;
      LookUp(m, uid);
      var room := rooms[m];
      if uid in room.peers && (room.peers[uid].signal != signal || room.peers[uid].conn != conn) {
        RemoveFrom(m, uid, 0);
      }
      LookUp(m, uid);
      Pause(m, if uid in room.peers then Telling(uid, Offer) else Entering(conn, uid, signal));
    }

    method EnterNow(m: Meeting, conn: Conn, uid: Uid, signal: SignalId)
      requires m in rooms && SoundApartFrom(m) && m !in active && InPhase(rooms[m], Entering(conn, uid, signal))
      modifies this`active, this`nextInstance, rooms[m]
      ensures Valid() && active - {m} == old(active) && Before(PhaseOf(m), Entering(conn, uid, signal))
      ensures forall s :: s in Sessions() ==> s in old(Sessions()) || fresh(s)
      ensures m in active && active[m] != Idle
      ensures nextInstance == old(nextInstance) + if PhaseOf(m).Telling? then 1 else 0
      ensures m in View() && View() == old(View())[m := View()[m]]
      ensures Moves(Entering(conn, uid, signal), old(View())[m], PhaseOf(m), View()[m], old(nextInstance))
    {
      hide Valid, SoundApartFrom, Sessions, View, Who, MediaRoom.Settled;
      LookUp(m, 0);
      var throws: bool := *;
      if throws {
        Pause(m, Closing);
      } else {
        Enter(m, uid, conn, signal);
        ValidAt(m);
        Pause(m, Telling(uid, Offer));
      }
    }

    method DisconnectNext(m: Meeting, todo: seq<MediaSession>)
      requires m in rooms && SoundApartFrom(m) && m !in active && rooms[m].Settled()
      modifies this`active, rooms[m], rooms[m].peers.Values
      ensures Valid() && active - {m} == old(active) && Before(PhaseOf(m), Disconnecting(todo))
      ensures Sessions() <= old(Sessions())
      ensures m in active && active[m] != Idle
      ensures m in View() && View() == old(View())[m := View()[m]]
      ensures Moves(Disconnecting(todo), old(View())[m], PhaseOf(m), View()[m], old(nextInstance))
    {
      hide Valid, SoundApartFrom, Sessions, View, MediaRoom.Settled, MediaRoom.SettledBut;
      LookUp(m, 0);
      if todo == [] {
        Pause(m, Closing);
      } else {
        RemoveFrom(m, todo[0].uid, todo[0].instanceId);
        Pause(m, Disconnecting(todo[1..]));
      }
    }

    method RemoveNow(m: Meeting, uid: Uid, instance: Instance)
      requires m in rooms && SoundApartFrom(m) && m !in active && InPhase(rooms[m], Removing(uid, instance))
      modifies this`active, rooms[m], rooms[m].peers.Values
      ensures Valid() && active - {m} == old(active) && PhaseOf(m) == Closing && Sessions() <= old(Sessions())
      ensures m in View() && View() == old(View())[m := View()[m]]
      ensures Moves(Removing(uid, instance), old(View())[m], PhaseOf(m), View()[m], old(nextInstance))
    {
      hide Valid, SoundApartFrom, Sessions, View, Who, MediaRoom.Settled, MediaRoom.SettledBut;
      LookUp(m, uid);
      RemoveFrom(m, uid, instance);
      Pause(m, Closing);
    }

    method CloseNow(m: Meeting)
      requires m in rooms && SoundApartFrom(m) && m !in active && rooms[m].Settled()
      modifies this`rooms
      ensures Valid() && rooms.Values <= old(rooms.Values) && Sessions() <= old(Sessions())
      ensures forall k :: MembersOf(View(), k) == MembersOf(old(View()), k)
      ensures Moves(Closing, MembersOf(old(View()), m), Idle, MembersOf(View(), m), nextInstance)
    {
      hide Valid, SoundApartFrom, Sessions, View, Who, MediaRoom.Settled;
      LookUp(m, 0);
      DropIfEmpty(m);
    }

    method TellNow(m: Meeting, uid: Uid, kind: Kind)
      requires m in rooms && SoundApartFrom(m) && m !in active && InPhase(rooms[m], Telling(uid, kind))
      modifies this`active, rooms[m].peers[uid]
      ensures Valid() && active - {m} == old(active) && Before(PhaseOf(m), Telling(uid, kind))
      ensures m in active ==> active[m] != Idle
      ensures m in View() && Moves(Telling(uid, kind), View()[m], PhaseOf(m), View()[m], nextInstance)
    {
      hide Valid, SoundApartFrom, View, Sessions, MediaRoom.Settled, MediaRoom.SettledBut;
      LookUp(m, uid);
      ValidAt(m);
      var done := Tell(m, uid, kind);
      if !done {
        Pause(m, Removing(uid, rooms[m].peers[uid].instanceId));
      }
    }

    method AskIn(m: Meeting, uid: Uid, media: Media)
      requires m in rooms && SoundApartFrom(m) && m !in active && rooms[m].Settled()
      modifies this`active, rooms[m]
      ensures Valid() && active - {m} == old(active) && Before(PhaseOf(m), Registering(uid, media))
      ensures Sessions() == old(Sessions())
      ensures m in active && active[m] != Idle
      ensures m in View() && View() == old(View())[m := View()[m]]
      ensures Moves(Registering(uid, media), old(View())[m], PhaseOf(m), View()[m], old(nextInstance))
    {
      hide Valid, SoundApartFrom, View, Sessions, BeingGiven, MediaRoom.Settled;
      LookUp(m, 0);
      var requests, toNegotiate := AskOf(m, uid, media);
      Pause(m, Adding(requests, toNegotiate));
    }

    method AskOf(m: Meeting, uid: Uid, media: Media)
      returns (requests: seq<TrackRequest>, toNegotiate: seq<MediaSession>)
      requires m in rooms && SoundApartFrom(m) && rooms[m].Settled()
      modifies rooms[m]
      ensures SoundApartFrom(m) && BeingGiven(rooms[m], requests, toNegotiate) && Sessions() == old(Sessions())
      ensures View() == old(View())
    {
      hide BeingGiven, MediaRoom.Settled;
      requests, toNegotiate := Ask(rooms[m], uid, media);
      OneRoomChanged(m);
    }

    method GiveIn(m: Meeting, requests: seq<TrackRequest>, toNegotiate: seq<MediaSession>)
      requires m in rooms && SoundApartFrom(m) && m !in active && BeingGiven(rooms[m], requests, toNegotiate)
      modifies this`active, rooms[m], rooms[m].peers.Values
      ensures Valid() && active - {m} == old(active) && Before(PhaseOf(m), Adding(requests, toNegotiate))
      ensures Sessions() <= old(Sessions())
      ensures m in active && active[m] != Idle
      ensures m in View() && View() == old(View())[m := View()[m]]
      ensures Moves(Adding(requests, toNegotiate), old(View())[m], PhaseOf(m), View()[m], old(nextInstance))
    {
      hide Valid, SoundApartFrom, View, Sessions, BeingGiven, BeingTold, BeingDropped;
      LookUp(m, 0);
      if requests == [] {
        AllGiven(rooms[m], toNegotiate);
        Pause(m, Negotiating(toNegotiate));
      } else {
        var done := GiveOne(m, requests, toNegotiate);
        Pause(m, if done then Adding(requests[1..], toNegotiate)
                 else Dropping(requests[0], requests[1..], toNegotiate));
      }
    }

    method GiveOne(m: Meeting, requests: seq<TrackRequest>, toNegotiate: seq<MediaSession>) returns (done: bool)
      requires m in rooms && SoundApartFrom(m) && BeingGiven(rooms[m], requests, toNegotiate) && requests != []
      modifies rooms[m].peers.Values
      ensures SoundApartFrom(m)
      ensures done ==> BeingGiven(rooms[m], requests[1..], toNegotiate)
      ensures !done ==> BeingDropped(rooms[m], requests[0], requests[1..], toNegotiate)
    {
      hide BeingGiven, BeingDropped;
      done := Give(rooms[m], requests, toNegotiate);
      OneRoomChanged(m);
    }

    method DropIn(m: Meeting, r: TrackRequest, requests: seq<TrackRequest>, toNegotiate: seq<MediaSession>)
      requires m in rooms && SoundApartFrom(m) && m !in active && BeingDropped(rooms[m], r, requests, toNegotiate)
      modifies this`active, rooms[m], rooms[m].peers.Values
      ensures Valid() && active - {m} == old(active) && Before(PhaseOf(m), Dropping(r, requests, toNegotiate))
      ensures Sessions() <= old(Sessions())
      ensures m in active && active[m] != Idle
      ensures m in View() && View() == old(View())[m := View()[m]]
      ensures Moves(Dropping(r, requests, toNegotiate), old(View())[m], PhaseOf(m), View()[m], old(nextInstance))
    {
      hide Valid, SoundApartFrom, View, Sessions, BeingGiven, BeingDropped;
      LookUp(m, 0);
      DropOne(m, r, requests, toNegotiate);
      Pause(m, Adding(requests, toNegotiate));
    }

    method DropOne(m: Meeting, r: TrackRequest, requests: seq<TrackRequest>, toNegotiate: seq<MediaSession>)
      requires m in rooms && SoundApartFrom(m) && BeingDropped(rooms[m], r, requests, toNegotiate)
      modifies rooms[m], rooms[m].peers.Values
      ensures SoundApartFrom(m) && BeingGiven(rooms[m], requests, toNegotiate) && Sessions() <= old(Sessions())
      ensures View() == old(View())[m := AfterRemoval(old(View())[m], r.session.uid, r.session.instanceId)]
    {
      hide BeingGiven, BeingDropped;
      DropNext(rooms[m], r, requests, toNegotiate);
      OneRoomChanged(m);
    }

    method InformIn(m: Meeting, toNegotiate: seq<MediaSession>)
      requires m in rooms && SoundApartFrom(m) && m !in active && BeingTold(rooms[m], toNegotiate)
      modifies this`active, rooms[m], rooms[m].peers.Values
      ensures Valid() && active - {m} == old(active) && Before(PhaseOf(m), Negotiating(toNegotiate))
      ensures Sessions() <= old(Sessions())
      ensures m in active && active[m] != Idle
      ensures m in View() && View() == old(View())[m := View()[m]]
      ensures Moves(Negotiating(toNegotiate), old(View())[m], PhaseOf(m), View()[m], old(nextInstance))
    {
      hide Valid, SoundApartFrom, View, Sessions, BeingTold, BeingLeft, MediaRoom.Settled;
      LookUp(m, 0);
      if toNegotiate == [] {
        AllTold(rooms[m]);
        Pause(m, Closing);
      } else {
        var done := InformOne(m, toNegotiate);
        Pause(m, if done then Negotiating(toNegotiate[1..]) else Leaving(toNegotiate[0], toNegotiate[1..]));
      }
    }

    method InformOne(m: Meeting, toNegotiate: seq<MediaSession>) returns (done: bool)
      requires m in rooms && SoundApartFrom(m) && BeingTold(rooms[m], toNegotiate) && toNegotiate != []
      modifies rooms[m].peers.Values
      ensures SoundApartFrom(m)
      ensures done ==> BeingTold(rooms[m], toNegotiate[1..])
      ensures !done ==> BeingLeft(rooms[m], toNegotiate[0], toNegotiate[1..])
    {
      hide BeingTold, BeingLeft;
      done := Inform(rooms[m], toNegotiate);
      OneRoomChanged(m);
    }

    method LeaveIn(m: Meeting, session: MediaSession, toNegotiate: seq<MediaSession>)
      requires m in rooms && SoundApartFrom(m) && m !in active && BeingLeft(rooms[m], session, toNegotiate)
      modifies this`active, rooms[m], rooms[m].peers.Values
      ensures Valid() && active - {m} == old(active) && Before(PhaseOf(m), Leaving(session, toNegotiate))
      ensures Sessions() <= old(Sessions())
      ensures m in active && active[m] != Idle
      ensures m in View() && View() == old(View())[m := View()[m]]
      ensures Moves(Leaving(session, toNegotiate), old(View())[m], PhaseOf(m), View()[m], old(nextInstance))
    {
      hide Valid, SoundApartFrom, View, Sessions, BeingTold, BeingLeft;
      LookUp(m, 0);
      LeaveOne(m, session, toNegotiate);
      Pause(m, Negotiating(toNegotiate));
    }

    method LeaveOne(m: Meeting, session: MediaSession, toNegotiate: seq<MediaSession>)
      requires m in rooms && SoundApartFrom(m) && BeingLeft(rooms[m], session, toNegotiate)
      modifies rooms[m], rooms[m].peers.Values
      ensures SoundApartFrom(m) && BeingTold(rooms[m], toNegotiate) && Sessions() <= old(Sessions())
      ensures View() == old(View())[m := AfterRemoval(old(View())[m], session.uid, session.instanceId)]
    {
      hide BeingTold, BeingLeft;
      LeaveNext(rooms[m], session, toNegotiate);
      OneRoomChanged(m);
    }

    /** The steps of a registration. */
    method RegisterNext(m: Meeting, p: Phase)
      requires m in rooms && SoundApartFrom(m) && m !in active && InPhase(rooms[m], p)
      requires p.Registering? || p.Adding? || p.Dropping? || p.Negotiating? || p.Leaving?
      modifies this`active, rooms[m], rooms[m].peers.Values
      ensures Valid() && active - {m} == old(active) && Before(PhaseOf(m), p)
      ensures Sessions() <= old(Sessions())
      ensures m in active && active[m] != Idle
      ensures m in View() && View() == old(View())[m := View()[m]]
      ensures Moves(p, old(View())[m], PhaseOf(m), View()[m], old(nextInstance))
    {
      hide Valid, SoundApartFrom, Sessions, View, MediaRoom.Settled, Moves, Before;
      hide BeingGiven, BeingTold, BeingDropped, BeingLeft;
      match p {
        case Registering(uid, media) => AskIn(m, uid, media);
        case Adding(requests, toNegotiate) => GiveIn(m, requests, toNegotiate);
        case Dropping(r, requests, toNegotiate) => DropIn(m, r, requests, toNegotiate);
        case Negotiating(toNegotiate) => InformIn(m, toNegotiate);
        case Leaving(session, toNegotiate) => LeaveIn(m, session, toNegotiate);
      }
    }

    /** The worker's next locked section or library call, whatever the workers of other rooms have done since. */
    method Continue(m: Meeting)
      requires Valid() && m in active
      modifies this`rooms, this`nextInstance, this`active, rooms.Values, Sessions()
      ensures Valid() && active - {m} == old(active) - {m}
      ensures Moves(old(active[m]), MembersOf(old(View()), m), PhaseOf(m), MembersOf(View(), m), old(nextInstance))
      ensures forall k :: k != m ==> MembersOf(View(), k) == MembersOf(old(View()), k)
      ensures nextInstance == old(nextInstance) + if Enters(old(active[m]), PhaseOf(m)) then 1 else 0
      ensures m in active ==> active[m] != Idle && Before(active[m], old(active[m]))
      ensures rooms.Values <= old(rooms.Values) && forall s :: s in Sessions() ==> s in old(Sessions()) || fresh(s)
    {
      hide Valid, SoundApartFrom, Sessions, View, Who, MediaRoom.Settled, MediaRoom.SettledBut, Moves;
      LookUp(m, 0);
      var p := Unpause(m);
      match p {
        case Idle => ResumeValid(m);
        case Offering(conn, uid, signal) => ReplaceOld(m, conn, uid, signal);
        case Entering(conn, uid, signal) => EnterNow(m, conn, uid, signal);
        case Telling(uid, kind) => TellNow(m, uid, kind);
        case Removing(uid, instance) => RemoveNow(m, uid, instance);
        case Disconnecting(todo) => DisconnectNext(m, todo);
        case Closing => CloseNow(m);
        case _ => RegisterNext(m, p);
      }
    }

    /** Left to itself, a handler comes to its end. */
    method Complete(m: Meeting)
      requires Valid() && m in active
      modifies this`rooms, this`nextInstance, this`active, rooms.Values, Sessions()
      ensures Valid() && active == old(active) - {m}
      ensures rooms.Values <= old(rooms.Values) && forall s :: s in Sessions() ==> s in old(Sessions()) || fresh(s)
    {
      hide Valid, Sessions;
      ghost var others := active - {m};
      while m in active
        invariant Valid() && active - {m} == others
        invariant rooms.Values <= old(rooms.Values)
        invariant forall s :: s in Sessions() ==> s in old(Sessions()) || fresh(s)
        decreases if m in active then 1 + Stage(active[m]) else 0, Left(PhaseOf(m))
      {
        Continue(m);
      }
    }
  }

  // ---- Any sequence of whole events ----

  /** No handler runs, every room is settled, the members are those that the functions on values give for the
      events handled, and no session is stalled unless an Offer was repeated. */
  ghost predicate Served(system: LogicSystem, history: seq<Handled>)
    reads system, system.rooms.Values, system.Sessions()
  {
    && system.Valid() && system.active == map[] && system.View() == AfterAll(history)
    && (NoOfferRepeats(history) ==> system.NoneStalled())
  }

  lemma ServedView(system: LogicSystem, history: seq<Handled>)
    requires Served(system, history)
    ensures system.View() == AfterAll(history)
  {
  }

  method OpenHouse() returns (system: LogicSystem)
    ensures Served(system, []) && fresh(system) && fresh(system.rooms.Values) && fresh(system.Sessions())
  {
    system := new LogicSystem();
    hide LogicSystem.Valid, LogicSystem.View, LogicSystem.Sessions, LogicSystem.NoneStalled;
  }

  method HandleNext(system: LogicSystem, a: Arrival, ghost history: seq<Handled>) returns (ghost last: Handled)
    requires Served(system, history)
    modifies system, system.rooms.Values, system.Sessions()
    ensures Served(system, history + [last]) && last.arrival == a
    ensures fresh(system.rooms.Values - old(system.rooms.Values))
    ensures forall s :: s in system.Sessions() ==> s in old(system.Sessions()) || fresh(s)
  {
    hide LogicSystem.Valid, LogicSystem.View, LogicSystem.Sessions, LogicSystem.NoneStalled;
    hide NoOfferRepeats, Repeats, AfterEvent, AfterAll, MembersOf;
    ghost var issued := system.nextInstance;
    ghost var o := system.HandleRoomEvent(a.m, a.e, a.stopped);
    last := Handled(a, issued, o);
    OneMore(history, last);
  }

  /** Whatever events arrive in whatever order, and whatever the library refuses on the way: afterwards every
      room is settled, none is empty, and the members are those that the functions on values give. */
  method ServeAll(arrivals: seq<Arrival>) returns (system: LogicSystem, ghost history: seq<Handled>)
    ensures Served(system, history) && Answers(history, arrivals)
    ensures forall m :: OfLastOffers(history, m, MembersOf(system.View(), m))
  {
    assert Answers([], arrivals[..0]);
    hide Served, LogicSystem.Sessions, LogicSystem.View, Answers, AfterAll, MembersOf, OfLastOffers;
    system := OpenHouse();
    history := [];
    for i := 0 to |arrivals|
      invariant fresh(system) && fresh(system.rooms.Values) && fresh(system.Sessions())
      invariant Served(system, history) && Answers(history, arrivals[..i])
    {
      ghost var last := HandleNext(system, arrivals[i], history);
      AnswersMore(history, arrivals, last, i);
      history := history + [last];
    }
    assert arrivals[..|arrivals|] == arrivals;
    ServedView(system, history);
    forall m ensures OfLastOffers(history, m, MembersOf(system.View(), m)) {
      MembersAreOfLastOffers(history, m);
    }
  }
}
