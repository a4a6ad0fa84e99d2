/**
 RTP forwarding against the room worker: every interleaving, at the grain of the room lock and of
 the track lock of one session, of joins, departures, registrations and forwarding threads.
 */
module MediaRtp {
  import opened MediaTables

  /** A packet of a publisher on its way to one session, chosen under the room lock. */
  datatype Flight = Flight(source: Instance, publisher: Uid, media: Media, target: Instance)

  /** A packet with its outgoing track, copied under the track lock; later, a packet on the wire. */
  datatype Outgoing = Outgoing(target: Instance, ssrc: Ssrc, source: Instance, media: Media)

  datatype World = World(
    t: Tables,
    consumed: map<Instance, Consumed>,        // every session of this room, departed ones too
    asked: set<Binding>,                      // consumer tracks requested, some not yet created
    flights: set<Flight>,
    ready: set<Outgoing>,
    wire: seq<Outgoing>,
    grants: seq<(Instance, Media)>)        // who the k-th SSRC was allocated to

  datatype Step =
    | Join(uid: Uid, instance: Instance)
    | Leave(uid: Uid, expected: Instance)
    | RegisterTrack(uid: Uid, media: Media, requests: set<Binding>)
    | Create(b: Binding)
    | Forget(session: Instance, publisher: Uid)
    | LookUp(publisher: Uid, source: Instance, media: Media)
    | Copy(f: Flight)
    | Send(o: Outgoing)

  function Start(): World {
    World(EmptyTables(), map[], {}, {}, {}, [], [])
  }

  /** Under the room lock a registration asks only for bindings of current, registered members. */
  ghost predicate Asked(t: Tables, requests: set<Binding>) {
    forall b :: b in requests ==>
      b.member in t.peers && b.publisher in t.peers && t.Full(b.publisher) && b.member != b.publisher &&
      b == BindingFor(t, b.member, b.publisher, b.media)
  }

  ghost predicate Enabled(w: World, step: Step) {
    match step
    case Join(uid, instance) => uid !in w.t.peers && instance !in w.consumed
    case Leave(_, _) => true
    case RegisterTrack(uid, media, requests) => Asked(Register(w.t, uid, media), requests)
    case Create(b) => b in w.asked && b.target in w.consumed
    case Forget(session, _) => session in w.consumed
    case LookUp(publisher, source, _) => publisher in w.t.peers && w.t.peers[publisher] == source
    case Copy(f) => f in w.flights && f.target in w.consumed
    case Send(o) => o in w.ready
  }

  function Next(w: World, step: Step): World
    requires Enabled(w, step)
  {
    match step
    case Join(uid, instance) =>
      w.(t := AddPeer(w.t, uid, instance), consumed := w.consumed[instance := Consumed(map[], map[])])
    case Leave(uid, expected) => w.(t := RemovePeer(w.t, uid, expected))
    case RegisterTrack(uid, media, requests) =>
      w.(t := Register(w.t, uid, media), asked := w.asked + requests,
         grants := if Registers(w.t, uid, media) then w.grants + [(w.t.peers[uid], media)] else w.grants)
    case Create(b) =>
      w.(consumed := w.consumed[b.target := w.consumed[b.target].Add(b.publisher, b.instance, b.media, b.ssrc)])
    case Forget(session, publisher) => w.(consumed := w.consumed[session := w.consumed[session].Without(publisher)])
    case LookUp(publisher, source, media) =>
      w.(flights := w.flights +
           set q | q in w.t.peers && q != publisher :: Flight(source, publisher, media, w.t.peers[q]))
    case Copy(f) =>
      if w.consumed[f.target].Matches(f.publisher, f.source, f.media) then
        w.(ready := w.ready +
             {Outgoing(f.target, w.consumed[f.target].Tracks(f.media)[f.publisher].ssrc, f.source, f.media)})
      else w
    case Send(o) => w.(wire := w.wire + [o])
  }

  // ---- SSRC allocation ----

  /** The SSRC that the k-th allocation of a room hands out; the counter is 32 bits wide. */
  function Nth(k: nat): Ssrc {
    (FIRST_SSRC + k) % SSRC_SPACE
  }

  /** Two allocations collide exactly when they are a multiple of 2^32 apart. */
  lemma CollideIff(k: nat, l: nat)
    requires k <= l
    ensures Nth(k) == Nth(l) <==> (l - k) % SSRC_SPACE == 0
  {
  }

  /** `ssrc` was allocated to this session for this media type. */
  ghost predicate Owned(w: World, ssrc: Ssrc, source: Instance, media: Media) {
    exists k :: 0 <= k < |w.grants| && w.grants[k] == (source, media) && Nth(k) == ssrc
  }

  // ---- The invariant ----

  ghost predicate TablesOwned(w: World) {
    && w.t.nextSsrc == Nth(|w.grants|)
    && w.t.video.Keys <= w.t.peers.Keys && w.t.audio.Keys <= w.t.peers.Keys
    && (forall u, m :: u in w.t.Publishers(m) ==> Owned(w, w.t.Publishers(m)[u], w.t.peers[u], m))
  }

  ghost predicate MembersDistinct(w: World) {
    && (forall u :: u in w.t.peers ==> w.t.peers[u] in w.consumed)
    && (forall u, v :: u in w.t.peers && v in w.t.peers && u != v ==> w.t.peers[u] != w.t.peers[v])
  }

  ghost predicate TracksOwned(w: World) {
    && (forall b :: b in w.asked ==> Owned(w, b.ssrc, b.instance, b.media))
    && (forall i, p, m :: i in w.consumed && p in w.consumed[i].Tracks(m) ==>
          Owned(w, w.consumed[i].Tracks(m)[p].ssrc, w.consumed[i].Tracks(m)[p].publisher, m))
  }

  ghost predicate PacketsOwned(w: World) {
    && (forall f :: f in w.flights ==> f.target != f.source)
    && (forall o :: o in w.ready ==> Owned(w, o.ssrc, o.source, o.media) && o.target != o.source)
    && (forall i :: 0 <= i < |w.wire| ==>
          Owned(w, w.wire[i].ssrc, w.wire[i].source, w.wire[i].media) && w.wire[i].target != w.wire[i].source)
  }

  ghost predicate Inv(w: World) {
    TablesOwned(w) && MembersDistinct(w) && TracksOwned(w) && PacketsOwned(w)
  }

  lemma StartInv()
    ensures Inv(Start())
  {
  }

  lemma OwnedStays(w: World, next: World)
    requires w.grants <= next.grants
    ensures forall ssrc, source, m :: Owned(w, ssrc, source, m) ==> Owned(next, ssrc, source, m)
  {
  }

  lemma RegisterKeepsTables(w: World, uid: Uid, media: Media, requests: set<Binding>)
    requires TablesOwned(w) && Enabled(w, RegisterTrack(uid, media, requests))
    ensures TablesOwned(Next(w, RegisterTrack(uid, media, requests)))
  {
    hide Nth, Owned, Asked;
    var next := Next(w, RegisterTrack(uid, media, requests));
    OwnedStays(w, next);
    if Registers(w.t, uid, media) {
      LastIsOwned(w, w.t.peers[uid], media);
      OwnedByGrants(next, w.(grants := w.grants + [(w.t.peers[uid], media)]));
      assert next.t.nextSsrc == Nth(|next.grants|) by { CountUp(|w.grants|); }
      forall u, m | u in next.t.Publishers(m)
        ensures Owned(next, next.t.Publishers(m)[u], next.t.peers[u], m)
      {
        assert u in w.t.Publishers(m) || (u == uid && m == media);
      }
    }
  }

  lemma CountUp(k: nat)
    ensures NextSsrc(Nth(k)) == Nth(k + 1)
  {
  }

  lemma LastIsOwned(w: World, source: Instance, media: Media)
    ensures Owned(w.(grants := w.grants + [(source, media)]), Nth(|w.grants|), source, media)
  {
    assert (w.grants + [(source, media)])[|w.grants|] == (source, media);
  }

  lemma OwnedByGrants(w: World, v: World)
    requires w.grants == v.grants
    ensures forall ssrc, source, m :: Owned(w, ssrc, source, m) <==> Owned(v, ssrc, source, m)
  {
  }

  lemma StepKeepsTables(w: World, step: Step)
    requires TablesOwned(w) && Enabled(w, step)
    ensures TablesOwned(Next(w, step))
  {
    if step.RegisterTrack? {
      RegisterKeepsTables(w, step.uid, step.media, step.requests);
    } else {
      hide Owned, Nth;
      var next := Next(w, step);
      OwnedByGrants(w, next);
      forall u, m | u in next.t.Publishers(m)
        ensures Owned(next, next.t.Publishers(m)[u], next.t.peers[u], m)
      {
        assert u in w.t.Publishers(m) && next.t.peers[u] == w.t.peers[u];
      }
    }
  }

  lemma StepKeepsMembers(w: World, step: Step)
    requires MembersDistinct(w) && Enabled(w, step)
    ensures MembersDistinct(Next(w, step))
  {
  }

  lemma StepKeepsTracks(w: World, step: Step)
    requires TablesOwned(w) && TracksOwned(w) && Enabled(w, step)
    ensures TracksOwned(Next(w, step))
  {
    var next := Next(w, step);
    OwnedStays(w, next);
    StepKeepsTables(w, step);
    forall b | b in next.asked
      ensures Owned(next, b.ssrc, b.instance, b.media)
    {
      assert b in w.asked || b.publisher in next.t.Publishers(b.media);
    }
    forall i, p, m | i in next.consumed && p in next.consumed[i].Tracks(m)
      ensures Owned(next, next.consumed[i].Tracks(m)[p].ssrc, next.consumed[i].Tracks(m)[p].publisher, m)
    {
      assert i in w.consumed && p in w.consumed[i].Tracks(m) ==>
        Owned(w, w.consumed[i].Tracks(m)[p].ssrc, w.consumed[i].Tracks(m)[p].publisher, m);
    }
  }

  lemma StepKeepsPackets(w: World, step: Step)
    requires MembersDistinct(w) && TracksOwned(w) && PacketsOwned(w) && Enabled(w, step)
    ensures PacketsOwned(Next(w, step))
  {
    OwnedStays(w, Next(w, step));
  }

  lemma StepKeepsInv(w: World, step: Step)
    requires Inv(w) && Enabled(w, step)
    ensures Inv(Next(w, step))
  {
    StepKeepsTables(w, step);
    StepKeepsMembers(w, step);
    StepKeepsTracks(w, step);
    StepKeepsPackets(w, step);
  }

  // ---- Runs ----

  ghost predicate Feasible(w: World, steps: seq<Step>)
    decreases |steps|
  {
    steps == [] || (Enabled(w, steps[0]) && Feasible(Next(w, steps[0]), steps[1..]))
  }

  ghost function Run(w: World, steps: seq<Step>): World
    requires Feasible(w, steps)
    decreases |steps|
  {
    if steps == [] then w else Run(Next(w, steps[0]), steps[1..])
  }

  lemma {:induction false} RunKeepsInv(w: World, steps: seq<Step>)
    requires Inv(w) && Feasible(w, steps)
    ensures Inv(Run(w, steps))
    decreases |steps|
  {
    if steps != [] {
      StepKeepsInv(w, steps[0]);
      RunKeepsInv(Next(w, steps[0]), steps[1..]);
    }
  }

  /** In every run that allocates no more SSRCs than there are, all packets sent under one SSRC come
      from one publisher session and carry one media type, and none goes back to its publisher. */
  lemma OneSourcePerSsrc(steps: seq<Step>, i: nat, j: nat)
    requires Feasible(Start(), steps)
    requires var w := Run(Start(), steps); |w.grants| <= SSRC_SPACE && i < |w.wire| && j < |w.wire|
    ensures var wire := Run(Start(), steps).wire;
      && (wire[i].ssrc == wire[j].ssrc ==> wire[i].source == wire[j].source && wire[i].media == wire[j].media)
      && wire[i].target != wire[i].source
  {
    hide Run, Feasible;
    StartInv();
    RunKeepsInv(Start(), steps);
    var w := Run(Start(), steps);
    var a, b := w.wire[i], w.wire[j];
    OwnersAgree(w, a.ssrc, a.source, a.media, b.source, b.media, b.ssrc);
  }

  lemma OwnersAgree(w: World, ssrc: Ssrc, source: Instance, media: Media, source': Instance, media': Media, ssrc': Ssrc)
    requires |w.grants| <= SSRC_SPACE
    requires Owned(w, ssrc, source, media) && Owned(w, ssrc', source', media')
    ensures ssrc == ssrc' ==> source == source' && media == media'
  {
    hide Nth;
    var k :| 0 <= k < |w.grants| && w.grants[k] == (source, media) && Nth(k) == ssrc;
    var l :| 0 <= l < |w.grants| && w.grants[l] == (source', media') && Nth(l) == ssrc';
    if k <= l { CollideIff(k, l); } else { CollideIff(l, k); }
  }

  /** The bound is exact: the allocation after the last free SSRC hands out the first one again. */
  lemma WrapReusesFirst(steps: seq<Step>, uid: Uid, media: Media)
    requires Feasible(Start(), steps)
    requires var w := Run(Start(), steps); |w.grants| == SSRC_SPACE && Registers(w.t, uid, media)
    ensures var w := Run(Start(), steps);
      && Register(w.t, uid, media).Publishers(media)[uid] == FIRST_SSRC
      && Owned(w, FIRST_SSRC, w.grants[0].0, w.grants[0].1)
  {
    StartInv();
    RunKeepsInv(Start(), steps);
    assert Nth(0) == FIRST_SSRC;
  }

  // ---- The bound is tight ----

  lemma {:induction false} Extend(w: World, steps: seq<Step>, step: Step)
    requires Feasible(w, steps) && Enabled(Run(w, steps), step)
    ensures Feasible(w, steps + [step]) && Run(w, steps + [step]) == Next(Run(w, steps), step)
    decreases |steps|
  {
    hide Enabled, Next;
    if steps == [] {
      assert steps + [step] == [step] && [step][1..] == [];
    } else {
      assert (steps + [step])[0] == steps[0] && (steps + [step])[1..] == steps[1..] + [step];
      Extend(Next(w, steps[0]), steps[1..], step);
    }
  }

  /** Member 2 is in the room under instance 1, publishes nothing and receives nothing; nobody else is. */
  ghost predicate Listening(w: World) {
    && w.t.peers == map[2 := 1] && w.t.video == map[] && w.t.audio == map[]
    && 1 in w.consumed && w.consumed[1] == Consumed(map[], map[])
    && w.t.nextSsrc == Nth(|w.grants|)
  }

  ghost predicate NumberedBelow(w: World, bound: Instance) {
    forall i :: i in w.consumed ==> i < bound
  }

  lemma ListenerJoins() returns (steps: seq<Step>)
    ensures Feasible(Start(), steps) && var w := Run(Start(), steps);
      Listening(w) && NumberedBelow(w, 2) && w.grants == [] && w.wire == []
  {
    assert Run(Start(), []) == Start();
    Extend(Start(), [], Join(2, 1));
    steps := [] + [Join(2, 1)];
  }

  /** A member joins, registers its video and leaves. */
  lemma PassThrough(steps: seq<Step>, i: Instance) returns (more: seq<Step>)
    requires Feasible(Start(), steps) && Listening(Run(Start(), steps)) && NumberedBelow(Run(Start(), steps), i)
    ensures Feasible(Start(), more) && var w, v := Run(Start(), steps), Run(Start(), more);
      Listening(v) && NumberedBelow(v, i + 1) && |v.grants| == |w.grants| + 1 && v.wire == w.wire
  {
    var w := Run(Start(), steps);
    hide Run, Feasible, Nth;
    Extend(Start(), steps, Join(1, i));
    var a := Next(w, Join(1, i));
    Extend(Start(), steps + [Join(1, i)], RegisterTrack(1, Video, {}));
    var b := Next(a, RegisterTrack(1, Video, {}));
    CountUp(|w.grants|);
    more := steps + [Join(1, i)] + [RegisterTrack(1, Video, {})] + [Leave(1, 0)];
    Extend(Start(), steps + [Join(1, i)] + [RegisterTrack(1, Video, {})], Leave(1, 0));
    assert Next(b, Leave(1, 0)).t.peers == map[2 := 1];
  }

  lemma {:induction false} PassThroughs(steps: seq<Step>, i: Instance, n: nat) returns (more: seq<Step>)
    requires Feasible(Start(), steps) && Listening(Run(Start(), steps)) && NumberedBelow(Run(Start(), steps), i)
    ensures Feasible(Start(), more) && var w, v := Run(Start(), steps), Run(Start(), more);
      Listening(v) && NumberedBelow(v, i + n) && |v.grants| == |w.grants| + n && v.wire == w.wire
  {
    hide Run, Feasible, Listening, NumberedBelow;
    more := steps;
    if n > 0 {
      var almost := PassThroughs(steps, i, n - 1);
      more := PassThrough(almost, i + n - 1);
    }
  }

  /** Rooms in which any number of SSRCs has been allocated can be reached. */
  lemma AnyNumberOfGrants(n: nat)
    ensures exists steps :: Feasible(Start(), steps) && |Run(Start(), steps).grants| == n
  {
    var start := ListenerJoins();
    var steps := PassThroughs(start, 2, n);
  }

  /** Member 1 has joined under instance i and registered this track only. */
  ghost predicate Publishing(w: World, i: Instance, first: Media, ssrc: Ssrc) {
    && w.t.peers == map[2 := 1, 1 := i] && w.t.Publishers(first) == map[1 := ssrc]
    && w.t.Publishers(if first.Video? then Audio else Video) == map[]
    && 1 in w.consumed && w.consumed[1] == Consumed(map[], map[]) && w.t.nextSsrc == Nth(|w.grants|)
  }

  lemma JoinsAndRegisters(steps: seq<Step>, i: Instance, first: Media) returns (more: seq<Step>)
    requires Feasible(Start(), steps) && Listening(Run(Start(), steps)) && NumberedBelow(Run(Start(), steps), i)
    ensures Feasible(Start(), more)
    ensures var w, v := Run(Start(), steps), Run(Start(), more);
      && Publishing(v, i, first, Nth(|w.grants|)) && |v.grants| == |w.grants| + 1 && v.wire == w.wire
      && NumberedBelow(v, i + 1)
  {
    var w := Run(Start(), steps);
    hide Run, Feasible, Nth;
    CountUp(|w.grants|);
    Extend(Start(), steps, Join(1, i));
    var a := Next(w, Join(1, i));
    more := steps + [Join(1, i)];
    Extend(Start(), more, RegisterTrack(1, first, {}));
    more := more + [RegisterTrack(1, first, {})];
  }

  /** A member joins and registers both tracks, `first` first; the listener gets its video track. */
  lemma Subscribes(steps: seq<Step>, i: Instance, first: Media) returns (more: seq<Step>)
    requires Feasible(Start(), steps) && Listening(Run(Start(), steps)) && NumberedBelow(Run(Start(), steps), i)
    ensures Feasible(Start(), more)
    ensures var w, v := Run(Start(), steps), Run(Start(), more);
      && v.t.peers == map[2 := 1, 1 := i] && |v.grants| == |w.grants| + 2 && v.wire == w.wire
      && 1 in v.consumed && NumberedBelow(v, i + 1) && v.t.nextSsrc == Nth(|v.grants|)
      && v.t.video.Keys == v.t.audio.Keys == {1}
      && v.consumed[1] == Consumed(map[1 := Track(Nth(|w.grants| + if first.Video? then 0 else 1), i)], map[])
  {
    hide Run, Feasible, Nth;
    more := JoinsAndRegisters(steps, i, first);
    var w := Run(Start(), more);
    hide Listening;
    CountUp(|w.grants|);
    var second := if first.Video? then Audio else Video;
    var t := Register(w.t, 1, second);
    var binding := BindingFor(t, 2, 1, Video);
    var requests := {binding, BindingFor(t, 2, 1, Audio)};
    Extend(Start(), more, RegisterTrack(1, second, requests));
    more := more + [RegisterTrack(1, second, requests)];
    Extend(Start(), more, Create(binding));
    more := more + [Create(binding)];
  }

  /** A packet of the publisher goes all the way to the listener. */
  lemma Delivers(steps: seq<Step>, i: Instance) returns (more: seq<Step>)
    requires Feasible(Start(), steps)
    requires var w := Run(Start(), steps); w.t.peers == map[2 := 1, 1 := i] && 1 in w.consumed
    requires var w := Run(Start(), steps); w.consumed[1].Matches(1, i, Video)
    ensures Feasible(Start(), more)
    ensures var w, v := Run(Start(), steps), Run(Start(), more);
      && v.wire == w.wire + [Outgoing(1, w.consumed[1].Tracks(Video)[1].ssrc, i, Video)]
      && v.t == w.t && v.consumed == w.consumed && v.grants == w.grants
  {
    var w := Run(Start(), steps);
    hide Run, Feasible;
    var f := Flight(i, 1, Video, 1);
    Extend(Start(), steps, LookUp(1, i, Video));
    more := steps + [LookUp(1, i, Video)];
    var a := Next(w, LookUp(1, i, Video));
    assert 2 in w.t.peers && f in a.flights;
    Extend(Start(), more, Copy(f));
    more := more + [Copy(f)];
    var o := Outgoing(1, w.consumed[1].Tracks(Video)[1].ssrc, i, Video);
    Extend(Start(), more, Send(o));
    more := more + [Send(o)];
  }

  /** The publisher leaves, and the listener forgets it. */
  lemma Departs(steps: seq<Step>, i: Instance) returns (more: seq<Step>)
    requires Feasible(Start(), steps)
    requires var w := Run(Start(), steps);
      && w.t.peers == map[2 := 1, 1 := i] && w.t.video.Keys == w.t.audio.Keys == {1}
      && 1 in w.consumed && w.consumed[1].video.Keys == {1} && w.consumed[1].audio == map[]
      && w.t.nextSsrc == Nth(|w.grants|)
    ensures Feasible(Start(), more)
    ensures var w, v := Run(Start(), steps), Run(Start(), more);
      Listening(v) && v.wire == w.wire && v.grants == w.grants && v.consumed.Keys == w.consumed.Keys
  {
    var w := Run(Start(), steps);
    hide Run, Feasible, Nth;
    Extend(Start(), steps, Leave(1, 0));
    more := steps + [Leave(1, 0)];
    var a := Next(w, Leave(1, 0));
    Extend(Start(), more, Forget(1, 1));
    more := more + [Forget(1, 1)];
    assert a.t.peers == map[2 := 1] && a.t.video == map[] && a.t.audio == map[];
    assert w.consumed[1].video - {1} == map[];
  }

  /** One allocation beyond 2^32 and the packets of two different sessions meet on the wire under one SSRC:
      the bound of OneSourcePerSsrc cannot be raised. */
  lemma WrapCollides()
    ensures exists steps :: Feasible(Start(), steps) && var w := Run(Start(), steps);
      |w.grants| == SSRC_SPACE + 1 && |w.wire| == 2 &&
      w.wire[0].ssrc == w.wire[1].ssrc && w.wire[0].source != w.wire[1].source
  {
    hide Run, Feasible, Nth;
    var steps := ListenerJoins();
    steps := Subscribes(steps, 2, Video);
    steps := Delivers(steps, 2);
    steps := Departs(steps, 2);
    steps := PassThroughs(steps, 3, SSRC_SPACE - 3);
    steps := Subscribes(steps, SSRC_SPACE, Audio);
    steps := Delivers(steps, SSRC_SPACE);
    assert Nth(0) == Nth(SSRC_SPACE) by { CollideIff(0, SSRC_SPACE); }
  }
}
