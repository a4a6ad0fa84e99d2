/**
 The media room and the media sessions as the room worker changes them (MediaRoom.cpp,
 MediaSession.cpp): the subscription mesh and the offer/answer machine of every session.
 Whether a library call throws is a Boolean parameter of a session's method, which its callers choose freely.
 */
module MediaRooms {
  import opened MediaTables

  type Conn = int
  type SignalId = int

  class MediaSession {
    const uid: Uid
    const instanceId: Instance
    /** The Offer that began the session: its connection, and its number there. */
    const conn: Conn
    const signal: SignalId
    var outgoingVideo: map<Uid, Track>
    var outgoingAudio: map<Uid, Track>
    var initialAnswerCreated: bool
    var waitingRemoteAnswer: bool
    var negotiationPending: bool
    /** Signalling state of the peer connection: a server Offer is outstanding. */
    var haveLocalOffer: bool
    /** The outstanding Offer was given up for a repeated Offer of the client, and none took its place. */
    ghost var stalled: bool
    /** A call into the peer connection has thrown. */
    ghost var broken: bool
    /** The consumer tracks described by the last Offer that was created and not given up. */
    ghost var offered: set<(Media, Uid, Track)>

    ghost function View(): Consumed
      reads this
    {
      Consumed(outgoingVideo, outgoingAudio)
    }

    ghost function AllTracks(): set<(Media, Uid, Track)>
      reads this
    {
      (set u | u in outgoingVideo :: (Video, u, outgoingVideo[u])) +
      (set u | u in outgoingAudio :: (Audio, u, outgoingAudio[u]))
    }

    /** An answer is awaited exactly while one server Offer is outstanding, unless the session is stalled,
        and a postponed negotiation waits for an answer: the initial one or the awaited one. */
    ghost predicate Negotiating()
      reads this
    {
      && !broken
      && (waitingRemoteAnswer <==> haveLocalOffer || stalled) && !(haveLocalOffer && stalled)
      && (waitingRemoteAnswer ==> initialAnswerCreated)
      && (negotiationPending ==> !initialAnswerCreated || waitingRemoteAnswer)
    }

    /** Every consumer track is in an Offer made after it, or a new Offer is due, but for a stalled session. */
    ghost predicate Covered()
      reads this
    {
      AllTracks() <= offered || negotiationPending || stalled
    }

    constructor (uid: Uid, instanceId: Instance, conn: Conn, signal: SignalId)
      ensures this.uid == uid && this.instanceId == instanceId && this.conn == conn && this.signal == signal
      ensures Negotiating() && Covered() && !initialAnswerCreated && !negotiationPending && !stalled
      ensures View() == Consumed(map[], map[])
    {
      this.uid, this.instanceId, this.conn, this.signal := uid, instanceId, conn, signal;
      outgoingVideo, outgoingAudio := map[], map[];
      initialAnswerCreated, waitingRemoteAnswer, negotiationPending := false, false, false;
      haveLocalOffer := false;
      offered, broken, stalled := {}, false, false;
    }

    /** A second Offer while one is outstanding would be refused here. */
    method CreateOffer(throws: bool) returns (done: bool)
      requires !haveLocalOffer
      modifies this`haveLocalOffer, this`offered, this`broken
      ensures done == !throws && broken == (old(broken) || throws)
      ensures done ==> haveLocalOffer && offered == AllTracks()
    {
      if throws {
        broken := true;
        return false;
      }
      haveLocalOffer := true;
      offered := AllTracks();
      return true;
    }

    /** The initial Offer of the client, or a repeated one. The library gives up an outstanding Offer of its
        own for it; if nothing is pending then, the session goes on waiting for an answer to it. */
    method SetRemoteOffer(throws: bool, offerThrows: bool) returns (done: bool)
      requires Negotiating() && Covered()
      modifies this`initialAnswerCreated, this`waitingRemoteAnswer, this`negotiationPending,
               this`haveLocalOffer, this`offered, this`broken, this`stalled
      ensures broken == !done && done == !(throws || (old(negotiationPending) && offerThrows))
      ensures done ==> Negotiating() && Covered() && initialAnswerCreated && !negotiationPending
      ensures done ==> haveLocalOffer == old(negotiationPending)
      ensures done ==> (stalled <==> old(waitingRemoteAnswer) && !old(negotiationPending))
      ensures stalled ==> old(waitingRemoteAnswer)
      ensures done ==> offered == if haveLocalOffer then AllTracks() else if stalled then {} else old(offered)
    {
      if throws {
        broken := true;
        return false;
      }
      haveLocalOffer := false;
      stalled := waitingRemoteAnswer;
      if stalled {
        offered := {};
      }
      initialAnswerCreated := true;
      if negotiationPending {
        negotiationPending := false;
        waitingRemoteAnswer := true;
        stalled := false;
        done := CreateOffer(offerThrows);
        return;
      }
      return true;
    }

    /** The library refuses an answer when no Offer is outstanding. */
    method SetRemoteAnswer(throws: bool, offerThrows: bool) returns (done: bool)
      requires Negotiating() && Covered()
      modifies this`waitingRemoteAnswer, this`negotiationPending, this`haveLocalOffer, this`offered, this`broken
      ensures broken == !done
      ensures done == !(throws || !old(haveLocalOffer) || (old(negotiationPending) && offerThrows))
      ensures done ==> Negotiating() && Covered() && !negotiationPending
      ensures done ==> waitingRemoteAnswer == haveLocalOffer == old(negotiationPending)
      ensures done ==> offered == if haveLocalOffer then AllTracks() else old(offered)
    {
      if throws || !haveLocalOffer {
        broken := true;
        return false;
      }
      haveLocalOffer := false;
      waitingRemoteAnswer := false;
      if negotiationPending {
        negotiationPending := false;
        waitingRemoteAnswer := true;
        done := CreateOffer(offerThrows);
        return;
      }
      return true;
    }

    method RequestRenegotiation(throws: bool) returns (done: bool)
      requires Negotiating()
      modifies this`waitingRemoteAnswer, this`negotiationPending, this`haveLocalOffer, this`offered, this`broken
      ensures broken == !done
      ensures done ==> Negotiating() && Covered()
      ensures done ==>
        negotiationPending == (old(negotiationPending) || !initialAnswerCreated || old(waitingRemoteAnswer))
      ensures old(initialAnswerCreated && !waitingRemoteAnswer) ==> done == !throws
      ensures done && old(initialAnswerCreated && !waitingRemoteAnswer) ==>
        haveLocalOffer && waitingRemoteAnswer && offered == AllTracks()
      ensures old(!initialAnswerCreated || waitingRemoteAnswer) ==>
        done && haveLocalOffer == old(haveLocalOffer) && offered == old(offered)
    {
      if !initialAnswerCreated || waitingRemoteAnswer {
        negotiationPending := true;
        return true;
      }
      waitingRemoteAnswer := true;
      done := CreateOffer(throws);
    }

    /** A candidate changes nothing here but may be refused. */
    method AddRemoteCandidate(throws: bool) returns (done: bool)
      requires Negotiating() && Covered()
      modifies this`broken
      ensures broken == !done && done == !throws
      ensures done ==> Negotiating() && Covered()
    {
      done := !throws;
      broken := throws;
    }

    method AddOutgoingTrack(publisher: Uid, instance: Instance, media: Media, ssrc: Ssrc, throws: bool)
      returns (done: bool)
      modifies this`outgoingVideo, this`outgoingAudio, this`broken
      ensures broken == (old(broken) || !done)
      ensures done == (publisher in old(View()).Tracks(media) || !throws)
      ensures View() == if done then old(View()).Add(publisher, instance, media, ssrc) else old(View())
      ensures done ==> Negotiating() == old(Negotiating())
    {
      if publisher in (if media.Video? then outgoingVideo else outgoingAudio) {
        return true;
      }
      if throws {
        broken := true;
        return false;
      }
      if media.Video? {
        outgoingVideo := outgoingVideo[publisher := Track(ssrc, instance)];
      } else {
        outgoingAudio := outgoingAudio[publisher := Track(ssrc, instance)];
      }
      return true;
    }

    /** Under the track lock: the SSRC for a packet, if the track belongs to the packet's source. */
    method CopyTrack(publisher: Uid, instance: Instance, media: Media) returns (found: bool, ssrc: Ssrc)
      ensures found == View().Matches(publisher, instance, media)
      ensures found ==> ssrc == View().Tracks(media)[publisher].ssrc
    {
      var tracks := if media.Video? then outgoingVideo else outgoingAudio;
      if publisher !in tracks || tracks[publisher].publisher != instance {
        return false, 0;
      }
      return true, tracks[publisher].ssrc;
    }

    method RemoveOutgoingTracks(publisher: Uid)
      modifies this`outgoingVideo, this`outgoingAudio
      ensures View() == old(View()).Without(publisher)
      ensures old(Covered()) ==> Covered()
      ensures Negotiating() == old(Negotiating())
    {
      outgoingVideo := outgoingVideo - {publisher};
      outgoingAudio := outgoingAudio - {publisher};
      assert AllTracks() <= old(AllTracks());
    }
  }

  /** A session whose track is in no Offer that is outstanding, pending or to come by itself: the client makes
      an Offer, gets the server's Offer for the track, and repeats its own instead of answering. */
  method RepeatedOfferStalls(publisher: Uid, instance: Instance, media: Media, ssrc: Ssrc)
    returns (s: MediaSession)
    ensures s.Negotiating() && s.stalled && s.waitingRemoteAnswer && !s.haveLocalOffer && !s.negotiationPending
    ensures publisher in s.View().Tracks(media) && s.offered == {}
  {
    s := new MediaSession(1, 1, 1, 1);
    var answered := s.SetRemoteOffer(false, false);
    var added := s.AddOutgoingTrack(publisher, instance, media, ssrc, false);
    var offering := s.RequestRenegotiation(false);
    var repeated := s.SetRemoteOffer(false, false);
  }

  /** A binding together with the receiving session itself. */
  datatype TrackRequest = TrackRequest(
    session: MediaSession, publisher: Uid, instance: Instance, media: Media, ssrc: Ssrc)
  {
    function Value(): Binding {
      Binding(session.uid, session.instanceId, publisher, instance, media, ssrc)
    }
  }

  ghost function Values(requests: seq<TrackRequest>): set<Binding> {
    set r | r in requests :: r.Value()
  }

  /** Every member's offers are in order, and none but those in `due` has a consumer track that no
      Offer describes and no later Offer will. */
  ghost predicate NegotiatedBut(members: map<Uid, MediaSession>, due: set<MediaSession>)
    reads members.Values
  {
    forall u :: u in members ==> members[u].Negotiating() && (members[u].Covered() || members[u] in due)
  }

  lemma MoreDue(members: map<Uid, MediaSession>, due: set<MediaSession>)
    requires NegotiatedBut(members, {})
    ensures NegotiatedBut(members, due)
    ensures forall u :: u in members ==> !members[u].broken
  {
  }

  ghost function SetOf<T>(s: seq<T>): set<T> {
    set x | x in s
  }

  lemma KeyOf<K, V>(m: map<K, V>, value: V) returns (key: K)
    requires value in m.Values
    ensures key in m && m[key] == value
  {
    key :| key in m && m[key] == value;
  }

  lemma ValuesAppend(a: seq<TrackRequest>, b: seq<TrackRequest>)
    ensures Values(a + b) == Values(a) + Values(b)
  {
  }

  /** The server's hash maps are traversed in no particular order. */
  method AnyOf<T>(keys: set<T>) returns (key: T)
    requires keys != {}
    ensures key in keys
  {
    key :| key in keys;
  }

  class MediaRoom {
    var nextSsrc: Ssrc
    var peers: map<Uid, MediaSession>
    var videoPublishers: map<Uid, Ssrc>
    var audioPublishers: map<Uid, Ssrc>

    ghost function View(): Tables
      reads this
    {
      Tables(nextSsrc, map u | u in peers :: peers[u].instanceId, videoPublishers, audioPublishers)
    }

    ghost function Subs(): Subscriptions
      reads this, peers.Values
    {
      map u | u in peers :: peers[u].View()
    }

    ghost predicate Valid()
      reads this
    {
      && (forall u :: u in peers ==> peers[u].uid == u)
      && videoPublishers.Keys <= peers.Keys && audioPublishers.Keys <= peers.Keys
    }

    /** What holds between two events of the room worker. */
    ghost predicate Settled()
      reads this, peers.Values
    {
      Valid() && Mesh(View(), Subs()) && NegotiatedBut(peers, {})
    }

    constructor ()
      ensures Settled() && View() == EmptyTables() && peers == map[]
    {
      nextSsrc := FIRST_SSRC;
      peers, videoPublishers, audioPublishers := map[], map[], map[];
    }

    /** Settled, but for the negotiation of this member. */
    ghost predicate SettledBut(uid: Uid)
      reads this, peers.Values
    {
      Valid() && Mesh(View(), Subs()) && NegotiatedBut(peers - {uid}, {})
    }

    /** A peer of the same uid is replaced; the room stays settled when there was none. */
    method AddPeer(session: MediaSession)
      requires Valid()
      modifies this`peers
      ensures View() == MediaTables.AddPeer(old(View()), session.uid, session.instanceId)
      ensures peers == old(peers)[session.uid := session] && Valid()
      ensures old(Settled()) && session.uid !in old(peers) ==>
        session.Negotiating() && session.Covered() && session.View() == Consumed(map[], map[]) ==> Settled()
    {
      hide Mesh, MediaSession.Covered, MediaSession.Negotiating, View, Subs, MediaTables.AddPeer;
      ghost var before, subs := View(), Subs();
      Put(session);
      if session.uid !in before.peers && Mesh(before, subs) {
        JoinKeepsMesh(before, subs, session.uid, session.instanceId);
      }
    }

    method Put(session: MediaSession)
      requires Valid()
      modifies this`peers
      ensures View() == MediaTables.AddPeer(old(View()), session.uid, session.instanceId)
      ensures peers == old(peers)[session.uid := session] && Valid()
      ensures Subs() == old(Subs())[session.uid := session.View()]
      ensures forall u :: u in old(View()).peers <==> u in old(peers)
    {
      peers := peers[session.uid := session];
    }

    method RemovePeer(uid: Uid, expected: Instance)
      requires Valid()
      modifies this`peers, this`videoPublishers, this`audioPublishers,
               peers.Values`outgoingVideo, peers.Values`outgoingAudio
      ensures Valid()
      ensures View() == MediaTables.RemovePeer(old(View()), uid, expected)
      ensures Removes(old(View()), uid, expected) ==> View() == MediaTables.RemovePeer(old(View()), uid, 0)
      ensures Removes(old(View()), uid, expected) ==>
        peers == old(peers) - {uid} && Subs() == Departed(old(Subs()), uid)
      ensures !Removes(old(View()), uid, expected) ==> peers == old(peers) && Subs() == old(Subs())
      ensures forall u :: u in peers && old(peers[u].Covered()) ==> peers[u].Covered()
      ensures forall u :: u in peers && old(peers[u].Negotiating()) ==> peers[u].Negotiating()
      ensures old(Settled()) ==> Settled()
      ensures old(SettledBut(uid)) && Removes(old(View()), uid, expected) ==> Settled()
    {
      hide MediaSession.Covered, MediaSession.Negotiating;
      if expected != 0 && (uid !in peers || peers[uid].instanceId != expected) {
        return;
      }
      peers := peers - {uid};
      videoPublishers := videoPublishers - {uid};
      audioPublishers := audioPublishers - {uid};
      assert View().peers == old(View().peers) - {uid};
      assert Subs() == old(Subs()) - {uid};
      ForgetPublisher(uid);
      if old(Mesh(View(), Subs())) {
        DepartureKeepsMesh(old(View()), old(Subs()), uid);
      }
      hide Mesh, Departed;
    }

    /** The remaining members drop the tracks of a publisher that has left. */
    method ForgetPublisher(uid: Uid)
      requires Valid() && uid !in peers
      modifies peers.Values`outgoingVideo, peers.Values`outgoingAudio
      ensures Subs() == Forgotten(old(Subs()), uid)
      ensures forall u :: u in peers && old(peers[u].Covered()) ==> peers[u].Covered()
      ensures forall u :: u in peers && old(peers[u].Negotiating()) ==> peers[u].Negotiating()
    {
      hide MediaSession.Covered, MediaSession.Negotiating;
      var remaining := peers.Keys;
      while remaining != {}
        invariant remaining <= peers.Keys
        invariant forall u :: u in peers && u in remaining ==> unchanged(peers[u])
        invariant forall u :: u in peers && u !in remaining ==> peers[u].View() == old(peers[u].View()).Without(uid)
        invariant forall u :: u in peers && old(peers[u].Covered()) ==> peers[u].Covered()
        invariant forall u :: u in peers && old(peers[u].Negotiating()) ==> peers[u].Negotiating()
        decreases remaining
      {
        var u := AnyOf(remaining);
        var session := peers[u];
        assert forall v :: v in peers && v != u ==> peers[v] != session;
        session.RemoveOutgoingTracks(uid);
        remaining := remaining - {u};
      }
      forall u | u in peers
        ensures Subs()[u] == Forgotten(old(Subs()), uid)[u]
      {
        assert peers[u].View() == old(peers[u].View()).Without(uid);
      }
    }

    /** Under the room lock: the sessions that a packet of this publisher session goes to. */
    method ForwardTargets(publisher: Uid, instance: Instance) returns (targets: set<MediaSession>)
      ensures targets ==
        if publisher in peers && peers[publisher].instanceId == instance
        then set q | q in peers && q != publisher :: peers[q] else {}
    {
      targets := {};
      if publisher !in peers || peers[publisher].instanceId != instance {
        return;
      }
      var remaining := peers.Keys;
      while remaining != {}
        invariant remaining <= peers.Keys
        invariant targets == set q | q in peers && q !in remaining && q != publisher :: peers[q]
        decreases remaining
      {
        var q := AnyOf(remaining);
        remaining := remaining - {q};
        if q != publisher {
          targets := targets + {peers[q]};
        }
      }
    }

    /** The part of a registration that runs under the room lock: allocate the SSRC, and once the
        publisher is fully registered, ask for every consumer track that is now due. */
    method RegisterLocked(uid: Uid, media: Media)
      returns (requests: seq<TrackRequest>, toNegotiate: seq<MediaSession>)
      requires Settled()
      modifies this`nextSsrc, this`videoPublishers, this`audioPublishers
      ensures Valid() && View() == Register(old(View()), uid, media)
      ensures MeshBut(View(), Subs(), Values(requests))
      ensures forall r :: r in requests ==>
        r.session.uid in peers && peers[r.session.uid] == r.session && r.session in toNegotiate
      ensures forall s :: s in toNegotiate ==> s.uid in peers && peers[s.uid] == s
    {
      hide NegotiatedBut, Mesh, MeshBut, Register;
      requests, toNegotiate := [], [];
      var added := Allocate(uid, media);
      if !added {
        NothingAsked(View(), Subs());
        assert Values(requests) == {};
        return;
      }
      if uid in videoPublishers && uid in audioPublishers {
        requests, toNegotiate := ConsumersOf(uid);
        var own := PublishersFor(uid);
        if own != [] {
          ValuesAppend(requests, own);
          requests, toNegotiate := requests + own, toNegotiate + [peers[uid]];
        }
      }
      RegisterStartsMesh(old(View()), old(Subs()), uid, media, Values(requests));
    }

    /** Each media type of a publisher is registered once, under an SSRC of its own. */
    method Allocate(uid: Uid, media: Media) returns (added: bool)
      requires Valid()
      modifies this`nextSsrc, this`videoPublishers, this`audioPublishers
      ensures added == Registers(old(View()), uid, media) && (!added ==> View() == old(View()))
      ensures View() == Register(old(View()), uid, media) && Subs() == old(Subs()) && Valid()
      ensures videoPublishers ==
        if added && media.Video? then old(videoPublishers)[uid := old(nextSsrc)] else old(videoPublishers)
      ensures audioPublishers ==
        if added && media.Audio? then old(audioPublishers)[uid := old(nextSsrc)] else old(audioPublishers)
      ensures added == (uid in peers && uid !in old(if media.Video? then videoPublishers else audioPublishers))
      ensures nextSsrc == if added then (old(nextSsrc) + 1) % 0x1_0000_0000 else old(nextSsrc)
    {
      added := uid in peers && uid !in (if media.Video? then videoPublishers else audioPublishers);
      if !added {
        return;
      }
      if media.Video? {
        videoPublishers := videoPublishers[uid := nextSsrc];
      } else {
        audioPublishers := audioPublishers[uid := nextSsrc];
      }
      nextSsrc := NextSsrc(nextSsrc);
    }

    method ConsumersOf(uid: Uid) returns (requests: seq<TrackRequest>, toNegotiate: seq<MediaSession>)
      requires Valid() && uid in peers && View().Full(uid)
      ensures forall r :: r in requests ==>
        r.session.uid in peers && peers[r.session.uid] == r.session && r.session in toNegotiate
      ensures forall s :: s in toNegotiate ==> s.uid in peers && peers[s.uid] == s
      ensures Justified(View(), Values(requests))
      ensures forall q, m :: q in peers && q != uid ==> BindingFor(View(), q, uid, m) in Values(requests)
    {
      requests, toNegotiate := [], [];
      var remaining := peers.Keys;
      while remaining != {}
        invariant remaining <= peers.Keys
        invariant forall r :: r in requests ==>
          r.session.uid in peers && peers[r.session.uid] == r.session && r.session in toNegotiate &&
          r.session.uid != uid && r.Value() == BindingFor(View(), r.session.uid, uid, r.media)
        invariant forall s :: s in toNegotiate ==> s.uid in peers && peers[s.uid] == s
        invariant forall q, m :: q in peers && q !in remaining && q != uid ==>
          TrackRequest(peers[q], uid, peers[uid].instanceId, m, View().Publishers(m)[uid]) in requests
        decreases remaining
      {
        var q := AnyOf(remaining);
        remaining := remaining - {q};
        if q != uid {
          var source := peers[uid].instanceId;
          requests := requests +
            [TrackRequest(peers[q], uid, source, Video, videoPublishers[uid]),
             TrackRequest(peers[q], uid, source, Audio, audioPublishers[uid])];
          toNegotiate := toNegotiate + [peers[q]];
        }
      }
      forall q, m | q in peers && q != uid
        ensures BindingFor(View(), q, uid, m) in Values(requests)
      {
        var r := TrackRequest(peers[q], uid, peers[uid].instanceId, m, View().Publishers(m)[uid]);
        assert r in requests && r.Value() == BindingFor(View(), q, uid, m);
      }
    }

    method PublishersFor(uid: Uid) returns (requests: seq<TrackRequest>)
      requires Valid() && uid in peers
      ensures forall r :: r in requests ==> r.session == peers[uid]
      ensures Justified(View(), Values(requests))
      ensures forall p, m :: p in peers && p != uid && View().Full(p) ==>
        BindingFor(View(), uid, p, m) in Values(requests)
    {
      requests := [];
      var remaining := videoPublishers.Keys;
      while remaining != {}
        invariant remaining <= videoPublishers.Keys
        invariant forall r :: r in requests ==>
          r.session == peers[uid] && r.publisher != uid && View().Full(r.publisher) &&
          r.publisher in peers && r.Value() == BindingFor(View(), uid, r.publisher, r.media)
        invariant forall p, m :: p in videoPublishers && p !in remaining && p != uid && p in audioPublishers ==>
          TrackRequest(peers[uid], p, peers[p].instanceId, m, View().Publishers(m)[p]) in requests
        decreases remaining
      {
        var p := AnyOf(remaining);
        remaining := remaining - {p};
        if p != uid && p in audioPublishers {
          var source := peers[p].instanceId;
          requests := requests +
            [TrackRequest(peers[uid], p, source, Video, videoPublishers[p]),
             TrackRequest(peers[uid], p, source, Audio, audioPublishers[p])];
        }
      }
      forall p, m | p in peers && p != uid && View().Full(p)
        ensures BindingFor(View(), uid, p, m) in Values(requests)
      {
        var r := TrackRequest(peers[uid], p, peers[p].instanceId, m, View().Publishers(m)[p]);
        assert r in requests && r.Value() == BindingFor(View(), uid, p, m);
      }
    }

    /** The request is for members that have not changed since it was made. */
    predicate Known(session: MediaSession)
      reads this
    {
      session.uid in peers ==> peers[session.uid] == session
    }

    /** The library has refused the track to its receiver, which is still in the room. */
    ghost predicate Refused(r: TrackRequest, rest: set<Binding>, due: set<MediaSession>)
      reads this, peers.Values
    {
      && Valid() && MeshBut(View(), Subs(), rest + {r.Value()}) && NegotiatedBut(peers - {r.session.uid}, due)
      && r.session.uid in peers && peers[r.session.uid] == r.session && r.session.broken
    }

    /** Adds one requested consumer track, unless its receiver or its source has gone. */
    method AddRequested(r: TrackRequest, ghost rest: set<Binding>, ghost due: set<MediaSession>) returns (done: bool)
      requires Valid() && MeshBut(View(), Subs(), rest + {r.Value()}) && NegotiatedBut(peers, due)
      requires Known(r.session) && r.session in due
      modifies peers.Values`outgoingVideo, peers.Values`outgoingAudio, peers.Values`broken
      ensures done ==> Valid() && MeshBut(View(), Subs(), rest) && NegotiatedBut(peers, due)
      ensures !done ==> Refused(r, rest, due)
    {
      hide MediaSession.Covered, MediaSession.Negotiating, MeshBut;
      var b := r.session.uid;
      LiveIsExact(View(), Subs(), r.Value(), rest);
      if b !in peers || peers[b] != r.session || r.publisher !in peers ||
         peers[r.publisher].instanceId != r.instance {
        PassOver(View(), Subs(), r.Value(), rest);
        return true;
      }
      CarryOut(View(), Subs(), r.Value(), rest);
      assert forall v :: v in peers && v != b ==> peers[v] != r.session;
      var throws: bool := *;
      done := r.session.AddOutgoingTrack(r.publisher, r.instance, r.media, r.ssrc, throws);
      if done {
        assert Subs() == old(Subs())[b := old(Subs())[b].Add(r.publisher, r.instance, r.media, r.ssrc)];
      } else {
        assert Subs() == old(Subs());
      }
    }

    /** The receiver leaves the room, and with it the request. */
    method DropRefused(r: TrackRequest, ghost rest: set<Binding>, ghost due: set<MediaSession>)
      requires Refused(r, rest, due)
      modifies this`peers, this`videoPublishers, this`audioPublishers
      modifies peers.Values`outgoingVideo, peers.Values`outgoingAudio
      ensures Valid() && MeshBut(View(), Subs(), rest) && NegotiatedBut(peers, due)
      ensures peers == old(peers) - {r.session.uid}
      ensures View() == MediaTables.RemovePeer(old(View()), r.session.uid, 0)
    {
      hide MediaSession.Covered, MediaSession.Negotiating, MeshBut, Departed, MediaTables.RemovePeer;
      DropReceiver(View(), Subs(), r.Value(), rest);
      RemovePeer(r.session.uid, r.session.instanceId);
    }

    /** Carries out one requested consumer track. When the library throws, the receiving member is
        removed from the room. */
    method CarryOutRequest(r: TrackRequest, ghost rest: set<Binding>, ghost due: set<MediaSession>)
      requires Valid() && MeshBut(View(), Subs(), rest + {r.Value()}) && NegotiatedBut(peers, due)
      requires Known(r.session) && r.session in due
      modifies this`peers, this`videoPublishers, this`audioPublishers
      modifies peers.Values`outgoingVideo, peers.Values`outgoingAudio, peers.Values`broken
      ensures Valid() && MeshBut(View(), Subs(), rest) && NegotiatedBut(peers, due)
      ensures (peers == old(peers) && View() == old(View())) ||
              (r.session.broken && peers == old(peers) - {r.session.uid} &&
               View() == MediaTables.RemovePeer(old(View()), r.session.uid, 0))
    {
      hide MeshBut, NegotiatedBut, MediaTables.RemovePeer, Refused;
      var done := AddRequested(r, rest, due);
      if !done {
        RefusedIsBroken(r, rest, due);
        DropRefused(r, rest, due);
      }
    }

    lemma RefusedIsBroken(r: TrackRequest, rest: set<Binding>, due: set<MediaSession>)
      requires Refused(r, rest, due)
      ensures r.session.broken && r.session.uid in peers && peers[r.session.uid] == r.session
    {
    }

    lemma MembersByUid(session: MediaSession)
      requires Valid() && session in peers.Values
      ensures session.uid in peers && peers[session.uid] == session
    {
      var u := KeyOf(peers, session);
    }

    lemma RestrictToAll()
      requires Valid()
      ensures View() == Restrict(View(), peers.Keys)
    {
    }

    method AddRequestedTracks(requests: seq<TrackRequest>, ghost due: set<MediaSession>)
      requires Valid() && MeshBut(View(), Subs(), Values(requests)) && NegotiatedBut(peers, due)
      requires forall r :: r in requests ==> Known(r.session) && r.session in due
      modifies this`peers, this`videoPublishers, this`audioPublishers
      modifies peers.Values`outgoingVideo, peers.Values`outgoingAudio, peers.Values`broken
      ensures Valid() && Mesh(View(), Subs()) && NegotiatedBut(peers, due)
      ensures View() == Restrict(old(View()), peers.Keys)
      ensures peers.Keys <= old(peers.Keys) && forall u :: u in peers ==> peers[u] == old(peers)[u]
      ensures forall u :: u in old(peers) && u !in peers ==> old(peers[u]).broken
    {
      hide MeshBut, Mesh, Restrict, MediaTables.RemovePeer, View, Subs, NegotiatedBut;
      RestrictToAll();
      for i := 0 to |requests|
        invariant Valid() && MeshBut(View(), Subs(), Values(requests[i..])) && NegotiatedBut(peers, due)
        invariant View() == Restrict(old(View()), peers.Keys) && peers.Values <= old(peers.Values)
        invariant peers.Keys <= old(peers.Keys) && forall u :: u in peers ==> peers[u] == old(peers)[u]
        invariant forall u :: u in old(peers) && u !in peers ==> old(peers[u]).broken
      {
        assert requests[i..] == [requests[i]] + requests[i + 1..];
        ValuesAppend([requests[i]], requests[i + 1..]);
        assert Values([requests[i]]) == {requests[i].Value()};
        assert Values(requests[i..]) == Values(requests[i + 1..]) + {requests[i].Value()};
        LeaveRestricts(old(View()), peers.Keys, requests[i].session.uid);
        forall u | u in old(peers) && u !in peers
          ensures old(peers[u]) !in peers.Values
        {
          if old(peers[u]) in peers.Values {
            MembersByUid(old(peers[u]));
          }
        }
        label before:
        CarryOutRequest(requests[i], Values(requests[i + 1..]), due);
        forall u | u in old(peers) && u !in peers
          ensures old(peers[u]).broken
        {
          assert u !in old@before(peers) ==> old(peers[u]) !in old@before(peers.Values);
        }
      }
      assert Values(requests[|requests|..]) == {};
      NothingLeft(View(), Subs());
    }

    /** The session could not make its Offer and is still in the room. */
    ghost predicate Broke(session: MediaSession, rest: set<MediaSession>)
      reads this, peers.Values
    {
      && Valid() && Mesh(View(), Subs()) && NegotiatedBut(peers - {session.uid}, rest)
      && session.uid in peers && peers[session.uid] == session && session.broken
    }

    /** A session that was given tracks is told to negotiate, unless it has gone. */
    method TellOne(session: MediaSession, ghost rest: set<MediaSession>) returns (done: bool)
      requires Valid() && Mesh(View(), Subs()) && NegotiatedBut(peers, rest + {session}) && Known(session)
      modifies peers.Values`broken
      modifies peers.Values`waitingRemoteAnswer, peers.Values`negotiationPending
      modifies peers.Values`haveLocalOffer, peers.Values`offered
      ensures done ==> Valid() && Mesh(View(), Subs()) && NegotiatedBut(peers, rest)
      ensures !done ==> Broke(session, rest)
    {
      hide Mesh, MediaSession.Covered, MediaSession.Negotiating;
      var uid := session.uid;
      if uid !in peers || peers[uid] != session {
        return true;
      }
      assert forall v :: v in peers && v != uid ==> peers[v] != session;
      var throws: bool := *;
      done := session.RequestRenegotiation(throws);
      assert Subs() == old(Subs());
    }

    method DropBroken(session: MediaSession, ghost rest: set<MediaSession>)
      requires Broke(session, rest)
      modifies this`peers, this`videoPublishers, this`audioPublishers
      modifies peers.Values`outgoingVideo, peers.Values`outgoingAudio
      ensures Valid() && Mesh(View(), Subs()) && NegotiatedBut(peers, rest)
      ensures peers == old(peers) - {session.uid}
      ensures View() == MediaTables.RemovePeer(old(View()), session.uid, 0)
    {
      hide Mesh, Departed, MediaTables.RemovePeer, MediaSession.Covered, MediaSession.Negotiating;
      DepartureKeepsMesh(View(), Subs(), session.uid);
      RemovePeer(session.uid, session.instanceId);
    }

    /** A session that was given tracks is told to negotiate; one that cannot leaves the room. */
    method RenegotiateOne(session: MediaSession, ghost rest: set<MediaSession>)
      requires Valid() && Mesh(View(), Subs()) && NegotiatedBut(peers, rest + {session}) && Known(session)
      modifies this`peers, this`videoPublishers, this`audioPublishers
      modifies peers.Values`outgoingVideo, peers.Values`outgoingAudio, peers.Values`broken
      modifies peers.Values`waitingRemoteAnswer, peers.Values`negotiationPending
      modifies peers.Values`haveLocalOffer, peers.Values`offered
      ensures Valid() && Mesh(View(), Subs()) && NegotiatedBut(peers, rest)
      ensures (peers == old(peers) && View() == old(View())) ||
              (session.broken && peers == old(peers) - {session.uid} &&
               View() == MediaTables.RemovePeer(old(View()), session.uid, 0))
    {
      hide Mesh, NegotiatedBut, MediaTables.RemovePeer, Broke;
      var done := TellOne(session, rest);
      if !done {
        BrokeIsBroken(session, rest);
        DropBroken(session, rest);
      }
    }

    lemma BrokeIsBroken(session: MediaSession, rest: set<MediaSession>)
      requires Broke(session, rest)
      ensures session.broken && session.uid in peers && peers[session.uid] == session
    {
    }

    method Renegotiate(sessions: seq<MediaSession>)
      requires Valid() && Mesh(View(), Subs())
      requires NegotiatedBut(peers, SetOf(sessions))
      requires forall s :: s in sessions ==> Known(s)
      modifies this`peers, this`videoPublishers, this`audioPublishers
      modifies peers.Values`outgoingVideo, peers.Values`outgoingAudio, peers.Values`broken
      modifies peers.Values`waitingRemoteAnswer, peers.Values`negotiationPending
      modifies peers.Values`haveLocalOffer, peers.Values`offered
      ensures Settled()
      ensures View() == Restrict(old(View()), peers.Keys)
      ensures peers.Keys <= old(peers.Keys) && forall u :: u in peers ==> peers[u] == old(peers)[u]
      ensures forall u :: u in old(peers) && u !in peers ==> old(peers[u]).broken
    {
      hide Mesh, Restrict, MediaTables.RemovePeer, View, Subs, NegotiatedBut;
      RestrictToAll();
      for i := 0 to |sessions|
        invariant Valid() && Mesh(View(), Subs()) && NegotiatedBut(peers, SetOf(sessions[i..]))
        invariant View() == Restrict(old(View()), peers.Keys) && peers.Values <= old(peers.Values)
        invariant peers.Keys <= old(peers.Keys) && forall u :: u in peers ==> peers[u] == old(peers)[u]
        invariant forall u :: u in old(peers) && u !in peers ==> old(peers[u]).broken
        invariant forall s :: s in sessions ==> Known(s)
      {
        ghost var rest := SetOf(sessions[i + 1..]);
        assert SetOf(sessions[i..]) == rest + {sessions[i]};
        LeaveRestricts(old(View()), peers.Keys, sessions[i].uid);
        forall u | u in old(peers) && u !in peers
          ensures old(peers[u]) !in peers.Values
        {
          if old(peers[u]) in peers.Values {
            MembersByUid(old(peers[u]));
          }
        }
        label before:
        RenegotiateOne(sessions[i], rest);
        forall u | u in old(peers) && u !in peers
          ensures old(peers[u]).broken
        {
          assert u !in old@before(peers) ==> old(peers[u]) !in old@before(peers.Values);
        }
      }
      assert SetOf(sessions[|sessions|..]) == {};
    }

    /** The publisher's track of one media type is ready. Whatever the library refuses on the way,
        the members that remain form a settled mesh. */
    method RegisterPublisherTrack(uid: Uid, media: Media)
      requires Settled()
      modifies this
      modifies peers.Values`outgoingVideo, peers.Values`outgoingAudio, peers.Values`broken
      modifies peers.Values`waitingRemoteAnswer, peers.Values`negotiationPending
      modifies peers.Values`haveLocalOffer, peers.Values`offered
      ensures Settled()
      ensures View() == Restrict(Register(old(View()), uid, media), peers.Keys)
      ensures forall u :: u in peers ==> u in old(peers) && peers[u] == old(peers[u])
      ensures forall u :: u in old(peers) ==> (u in peers <==> !old(peers[u]).broken)
    {
      hide Mesh, MeshBut, Register, Restrict, View, Subs, NegotiatedBut;
      var requests, toNegotiate := RegisterLocked(uid, media);
      MoreDue(peers, SetOf(toNegotiate));
      AddRequestedTracks(requests, SetOf(toNegotiate));
      RestrictTwice(Register(old(View()), uid, media), peers.Keys);
      forall session | session in peers.Values
        ensures session in old(peers.Values)
      {
        MembersByUid(session);
      }
      forall u | u in old(peers) && u !in peers
        ensures old(peers[u]) !in peers.Values
      {
        if old(peers[u]) in peers.Values {
          MembersByUid(old(peers[u]));
        }
      }
      Renegotiate(toNegotiate);
      MoreDue(peers, {});
    }
  }
}
