/** The values behind a media room: members, publishers, SSRC allocation and consumer tracks. */
module MediaTables {
  type Uid = int
  /** Process-wide number of one media session; uids are reused, instances are not. */
  type Instance = nat
  type Ssrc = nat

  const FIRST_SSRC: Ssrc := 100000
  const SSRC_SPACE: nat := 0x1_0000_0000

  datatype Media = Video | Audio

  /** A consumer track, bound to the publisher instance it was created for. */
  datatype Track = Track(ssrc: Ssrc, publisher: Instance)

  /** What the room lock protects. */
  datatype Tables = Tables(
    nextSsrc: Ssrc,
    peers: map<Uid, Instance>,
    video: map<Uid, Ssrc>,
    audio: map<Uid, Ssrc>)
  {
    function Publishers(media: Media): map<Uid, Ssrc> {
      if media.Video? then video else audio
    }

    /** Both publishing tracks are registered, so the member can be subscribed to. */
    predicate Full(uid: Uid) {
      uid in video && uid in audio
    }
  }

  /** A consumer track to be created: session `target` of `member` is to receive `media` of `publisher`. */
  datatype Binding = Binding(
    member: Uid, target: Instance, publisher: Uid, instance: Instance, media: Media, ssrc: Ssrc)

  function EmptyTables(): Tables {
    Tables(FIRST_SSRC, map[], map[], map[])
  }

  function NextSsrc(ssrc: Ssrc): Ssrc {
    (ssrc + 1) % SSRC_SPACE
  }

  function AddPeer(t: Tables, uid: Uid, instance: Instance): Tables {
    t.(peers := t.peers[uid := instance])
  }

  /** Instance 0 is never issued; it stands for "whichever session the uid has". */
  predicate Removes(t: Tables, uid: Uid, expected: Instance) {
    expected == 0 || (uid in t.peers && t.peers[uid] == expected)
  }

  function RemovePeer(t: Tables, uid: Uid, expected: Instance): Tables {
    if Removes(t, uid, expected) then
      t.(peers := t.peers - {uid}, video := t.video - {uid}, audio := t.audio - {uid})
    else t
  }

  predicate Registers(t: Tables, uid: Uid, media: Media) {
    uid in t.peers && uid !in t.Publishers(media)
  }

  function Register(t: Tables, uid: Uid, media: Media): Tables {
    if !Registers(t, uid, media) then t
    else if media.Video? then t.(video := t.video[uid := t.nextSsrc], nextSsrc := NextSsrc(t.nextSsrc))
    else t.(audio := t.audio[uid := t.nextSsrc], nextSsrc := NextSsrc(t.nextSsrc))
  }

  /** The binding that lets member `q` consume `m` of the fully registered member `p`. */
  function BindingFor(t: Tables, q: Uid, p: Uid, m: Media): Binding
    requires q in t.peers && p in t.peers && t.Full(p)
  {
    Binding(q, t.peers[q], p, t.peers[p], m, t.Publishers(m)[p])
  }

  function AddTrack(tracks: map<Uid, Track>, publisher: Uid, instance: Instance, ssrc: Ssrc): map<Uid, Track> {
    if publisher in tracks then tracks else tracks[publisher := Track(ssrc, instance)]
  }

  /** The consumer tracks of one session. */
  datatype Consumed = Consumed(video: map<Uid, Track>, audio: map<Uid, Track>)
  {
    function Tracks(media: Media): map<Uid, Track> {
      if media.Video? then video else audio
    }

    function Add(publisher: Uid, instance: Instance, media: Media, ssrc: Ssrc): Consumed {
      if media.Video? then this.(video := AddTrack(video, publisher, instance, ssrc))
      else this.(audio := AddTrack(audio, publisher, instance, ssrc))
    }

    function Without(publisher: Uid): Consumed {
      Consumed(video - {publisher}, audio - {publisher})
    }

    /** What an RTP thread finds under the track lock: a track that belongs to the packet's source. */
    predicate Matches(publisher: Uid, instance: Instance, media: Media) {
      publisher in Tracks(media) && Tracks(media)[publisher].publisher == instance
    }
  }

  /** The tables without the members that are not in `uids`. */
  function Restrict(t: Tables, uids: set<Uid>): Tables {
    t.(peers := map u | u in t.peers && u in uids :: t.peers[u],
       video := map u | u in t.video && u in uids :: t.video[u],
       audio := map u | u in t.audio && u in uids :: t.audio[u])
  }

  lemma RestrictTwice(t: Tables, uids: set<Uid>)
    ensures forall fewer: set<Uid> :: fewer <= uids ==> Restrict(Restrict(t, uids), fewer) == Restrict(t, fewer)
  {
  }

  lemma LeaveRestricts(t: Tables, uids: set<Uid>, uid: Uid)
    ensures RemovePeer(Restrict(t, uids), uid, 0) == Restrict(t, uids - {uid})
    ensures t.video.Keys <= t.peers.Keys && t.audio.Keys <= t.peers.Keys ==> Restrict(t, t.peers.Keys) == t
    ensures Restrict(t, uids).peers.Keys == t.peers.Keys * uids
  {
  }

  // ---- The subscription mesh ----

  /** The members' consumer tracks, by member. */
  type Subscriptions = map<Uid, Consumed>

  ghost predicate WellFormed(t: Tables, subs: Subscriptions) {
    t.video.Keys <= t.peers.Keys && t.audio.Keys <= t.peers.Keys && subs.Keys == t.peers.Keys
  }

  /** `q` consumes `m` of `p`. */
  predicate Consumes(subs: Subscriptions, q: Uid, p: Uid, m: Media) {
    q in subs && p in subs[q].Tracks(m)
  }

  /** Every consumer track of a member belongs to another, fully registered member: it is bound to
      that member's current instance and carries the SSRC registered for it. */
  ghost predicate NothingStale(t: Tables, subs: Subscriptions)
    requires WellFormed(t, subs)
  {
    forall q, p, m :: Consumes(subs, q, p, m) ==>
      p != q && t.Full(p) && subs[q].Tracks(m)[p] == Track(t.Publishers(m)[p], t.peers[p])
  }

  /** Any two distinct fully registered members consume both media of each other. */
  ghost predicate Complete(t: Tables, subs: Subscriptions) {
    forall q, p, m :: t.Full(q) && t.Full(p) && q != p ==> Consumes(subs, q, p, m)
  }

  ghost predicate Mesh(t: Tables, subs: Subscriptions) {
    WellFormed(t, subs) && NothingStale(t, subs) && Complete(t, subs)
  }

  function Joined(subs: Subscriptions, uid: Uid): Subscriptions {
    subs[uid := Consumed(map[], map[])]
  }

  function Forgotten(subs: Subscriptions, uid: Uid): Subscriptions {
    map q | q in subs :: subs[q].Without(uid)
  }

  function Departed(subs: Subscriptions, uid: Uid): Subscriptions {
    Forgotten(subs - {uid}, uid)
  }

  lemma JoinKeepsMesh(t: Tables, subs: Subscriptions, uid: Uid, instance: Instance)
    requires Mesh(t, subs) && uid !in t.peers
    ensures Mesh(AddPeer(t, uid, instance), Joined(subs, uid))
  {
    forall q, p, m
      ensures Consumes(Joined(subs, uid), q, p, m) == Consumes(subs, q, p, m)
    {
    }
  }

  lemma DepartureKeepsWellFormed(t: Tables, subs: Subscriptions, uid: Uid)
    requires WellFormed(t, subs)
    ensures WellFormed(RemovePeer(t, uid, 0), Departed(subs, uid))
    ensures forall q, p, m ::
      Consumes(Departed(subs, uid), q, p, m) <==> Consumes(subs, q, p, m) && q != uid && p != uid
  {
  }

  lemma DepartureKeepsFresh(t: Tables, subs: Subscriptions, uid: Uid)
    requires WellFormed(t, subs) && NothingStale(t, subs)
    ensures WellFormed(RemovePeer(t, uid, 0), Departed(subs, uid))
    ensures NothingStale(RemovePeer(t, uid, 0), Departed(subs, uid))
  {
    DepartureKeepsWellFormed(t, subs, uid);
  }

  lemma DepartureKeepsMesh(t: Tables, subs: Subscriptions, uid: Uid)
    requires Mesh(t, subs)
    ensures Mesh(RemovePeer(t, uid, 0), Departed(subs, uid))
  {
    DepartureKeepsWellFormed(t, subs, uid);
    DepartureKeepsFresh(t, subs, uid);
  }

  // ---- Registration in progress: some bindings are still to be carried out ----

  /** The two members of the binding are those it was made for. */
  predicate Live(t: Tables, b: Binding) {
    b.member in t.peers && b.publisher in t.peers
  }

  ghost predicate Justified(t: Tables, rest: set<Binding>) {
    forall b :: b in rest && Live(t, b) ==>
      t.Full(b.publisher) && b.member != b.publisher && b == BindingFor(t, b.member, b.publisher, b.media)
  }

  ghost predicate CompleteBut(t: Tables, subs: Subscriptions, rest: set<Binding>)
    requires WellFormed(t, subs)
  {
    forall q, p, m :: t.Full(q) && t.Full(p) && q != p ==> Consumes(subs, q, p, m) || BindingFor(t, q, p, m) in rest
  }

  ghost predicate MeshBut(t: Tables, subs: Subscriptions, rest: set<Binding>) {
    WellFormed(t, subs) && NothingStale(t, subs) && CompleteBut(t, subs, rest) && Justified(t, rest)
  }

  /** The bindings that the registration completing `uid` has to carry out. */
  ghost predicate Asks(t: Tables, uid: Uid, rest: set<Binding>) {
    && (forall q, m :: q in t.peers && q != uid && uid in t.peers && t.Full(uid) ==> BindingFor(t, q, uid, m) in rest)
    && (forall p, m :: p in t.peers && p != uid && uid in t.peers && t.Full(p) ==> BindingFor(t, uid, p, m) in rest)
  }

  lemma RegisterStartsMesh(t: Tables, subs: Subscriptions, uid: Uid, media: Media, rest: set<Binding>)
    requires Mesh(t, subs) && Registers(t, uid, media)
    requires var t' := Register(t, uid, media); Justified(t', rest) && (t'.Full(uid) ==> Asks(t', uid, rest))
    ensures MeshBut(Register(t, uid, media), subs, rest)
  {
    var t' := Register(t, uid, media);
    forall q, p, m | Consumes(subs, q, p, m)
      ensures p != q && t'.Full(p) && subs[q].Tracks(m)[p] == Track(t'.Publishers(m)[p], t'.peers[p])
    {
      assert p != uid;
    }
  }

  lemma CarryOut(t: Tables, subs: Subscriptions, b: Binding, rest: set<Binding>)
    requires MeshBut(t, subs, rest + {b}) && Live(t, b)
    ensures MeshBut(t, subs[b.member := subs[b.member].Add(b.publisher, b.instance, b.media, b.ssrc)], rest)
  {
    var subs' := subs[b.member := subs[b.member].Add(b.publisher, b.instance, b.media, b.ssrc)];
    forall q, p, m
      ensures Consumes(subs', q, p, m) <==>
              Consumes(subs, q, p, m) || (q == b.member && p == b.publisher && m == b.media)
      ensures Consumes(subs, q, p, m) ==> subs'[q].Tracks(m)[p] == subs[q].Tracks(m)[p]
    {
    }
    assert b in rest + {b};
  }

  lemma PassOver(t: Tables, subs: Subscriptions, b: Binding, rest: set<Binding>)
    requires MeshBut(t, subs, rest + {b}) && !Live(t, b)
    ensures MeshBut(t, subs, rest)
  {
    forall q, p, m | t.Full(q) && t.Full(p) && q != p && !Consumes(subs, q, p, m)
      ensures BindingFor(t, q, p, m) in rest
    {
      assert BindingFor(t, q, p, m) in rest + {b};
    }
  }

  lemma DepartureKeepsMeshBut(t: Tables, subs: Subscriptions, uid: Uid, rest: set<Binding>)
    requires MeshBut(t, subs, rest)
    ensures MeshBut(RemovePeer(t, uid, 0), Departed(subs, uid), rest)
  {
    DepartureKeepsWellFormed(t, subs, uid);
    DepartureKeepsFresh(t, subs, uid);
  }

  lemma DropReceiver(t: Tables, subs: Subscriptions, b: Binding, rest: set<Binding>)
    requires MeshBut(t, subs, rest + {b})
    ensures MeshBut(RemovePeer(t, b.member, 0), Departed(subs, b.member), rest)
  {
    DepartureKeepsMeshBut(t, subs, b.member, rest + {b});
    PassOver(RemovePeer(t, b.member, 0), Departed(subs, b.member), b, rest);
  }

  lemma LiveIsExact(t: Tables, subs: Subscriptions, b: Binding, rest: set<Binding>)
    requires MeshBut(t, subs, rest + {b})
    ensures Live(t, b) ==> t.peers[b.publisher] == b.instance && b.member in subs
  {
    assert b in rest + {b};
  }

  lemma NothingAsked(t: Tables, subs: Subscriptions)
    requires Mesh(t, subs)
    ensures MeshBut(t, subs, {})
  {
  }

  lemma NothingLeft(t: Tables, subs: Subscriptions)
    requires MeshBut(t, subs, {})
    ensures Mesh(t, subs)
  {
  }
}
