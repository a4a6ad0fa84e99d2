/**
 The media server's room index as a value, and what its event handlers (LogicSystem.cpp) make of it. Events of
 one meeting are executed one at a time in queue order, which is what the room pool provides.
 */
module MediaLogic {
  import opened Histories
  import opened MediaTables
  import opened MediaRooms

  datatype Meeting = Meeting(id: int)

  /** A media session as the handlers identify it. */
  datatype Sess = Sess(instance: Instance, signal: SignalId, conn: Conn)

  datatype Kind = Offer | Answer | Candidate | Leave

  datatype Event =
    | Signal(conn: Conn, kind: Kind, uid: Uid, signal: SignalId)
    | TrackReady(uid: Uid, instance: Instance, media: Media)
    | LocalSignal(conn: Conn, uid: Uid, instance: Instance, signal: SignalId)
    | Disconnected(conn: Conn)

  /** What the library did during one event: the calls that threw, and the members whose peer
      connection failed while a publisher was registered. */
  datatype Outcome = Outcome(constructionThrows: bool, throws: bool, failed: set<Uid>)

  type Members = map<Uid, Sess>

  /** The runtime room index. */
  type Rooms = map<Meeting, Members>

  function MembersOf(rooms: Rooms, m: Meeting): Members {
    if m in rooms then rooms[m] else map[]
  }

  /** No empty room stays indexed. */
  function Indexed(rooms: Rooms, m: Meeting, members: Members): Rooms {
    if members == map[] then rooms - {m} else rooms[m := members]
  }

  // ---- The handlers, as functions of the members of the event's own meeting ----

  predicate IsFrom(members: Members, uid: Uid, signal: SignalId, conn: Conn) {
    uid in members && members[uid].signal == signal && members[uid].conn == conn
  }

  /** A removal for this instance concerns the member; instance 0 stands for whichever the uid has. */
  predicate Drops(members: Members, uid: Uid, instance: Instance) {
    instance == 0 || (uid in members && members[uid].instance == instance)
  }

  function AfterRemoval(members: Members, uid: Uid, instance: Instance): Members {
    if Drops(members, uid, instance) then members - {uid} else members
  }

  function AfterOffer(members: Members, uid: Uid, signal: SignalId, conn: Conn, issued: Instance, o: Outcome): Members {
    if IsFrom(members, uid, signal, conn) then (if o.throws then members - {uid} else members)
    else if o.constructionThrows || o.throws then members - {uid}
    else members[uid := Sess(issued, signal, conn)]
  }

  function AfterPreparing(members: Members, uid: Uid, signal: SignalId, conn: Conn): Members {
    if uid in members && !IsFrom(members, uid, signal, conn) then members - {uid} else members
  }

  /** Answers and candidates reach a session only from its own connection and signal number. */
  function AfterRemote(members: Members, uid: Uid, signal: SignalId, conn: Conn, o: Outcome): Members {
    if IsFrom(members, uid, signal, conn) && o.throws then members - {uid} else members
  }

  function AfterLeave(members: Members, uid: Uid, signal: SignalId, conn: Conn): Members {
    if IsFrom(members, uid, signal, conn) then members - {uid} else members
  }

  function AfterReady(members: Members, uid: Uid, instance: Instance, o: Outcome): Members {
    if uid in members && members[uid].instance == instance then members - o.failed else members
  }

  function AfterDisconnect(members: Members, conn: Conn): Members {
    map u | u in members && members[u].conn != conn :: members[u]
  }

  function After(members: Members, e: Event, issued: Instance, o: Outcome): Members {
    match e
    case Signal(conn, Offer, uid, signal) => AfterOffer(members, uid, signal, conn, issued, o)
    case Signal(conn, Answer, uid, signal) => AfterRemote(members, uid, signal, conn, o)
    case Signal(conn, Candidate, uid, signal) => AfterRemote(members, uid, signal, conn, o)
    case Signal(conn, Leave, uid, signal) => AfterLeave(members, uid, signal, conn)
    case TrackReady(uid, instance, _) => AfterReady(members, uid, instance, o)
    case LocalSignal(_, _, _, _) => members
    case Disconnected(conn) => AfterDisconnect(members, conn)
  }

  /** Whether a dequeued event is executed at all, which is decided when it begins: signals of a stopped
      connection are dropped, a track notification needs its very session and a connection that has not
      stopped, and a disconnect event is for a stopped connection only. */
  predicate Executes(members: Members, e: Event, stopped: set<Conn>) {
    match e
    case Signal(c, _, _, _) => c !in stopped
    case TrackReady(uid, instance, _) =>
      uid in members && members[uid].instance == instance && members[uid].conn !in stopped
    case Disconnected(c) => c in stopped
    case LocalSignal(_, _, _, _) => true
  }

  /** An Offer of a connection that has a session under this very signal number already. */
  predicate Repeats(members: Members, e: Event) {
    e.Signal? && e.kind.Offer? && IsFrom(members, e.uid, e.signal, e.conn)
  }

  function AfterEvent(
    rooms: Rooms, m: Meeting, e: Event, stopped: set<Conn>, issued: Instance, o: Outcome): Rooms
  {
    var members := MembersOf(rooms, m);
    Indexed(rooms, m, if Executes(members, e, stopped) then After(members, e, issued, o) else members)
  }

  lemma NobodyLeft(members: Members, conn: Conn)
    requires forall u :: u in members ==> members[u].conn != conn
    ensures AfterDisconnect(members, conn) == members
  {
    forall u: Uid
      ensures u in AfterDisconnect(members, conn) <==> u in members
    {
    }
  }

  lemma RemoveOne(members: Members, uid: Uid, conn: Conn)
    requires uid in members && members[uid].conn == conn
    ensures AfterDisconnect(members - {uid}, conn) == AfterDisconnect(members, conn)
  {
  }

  lemma Rest<K, V>(all: map<K, V>, rest: map<K, V>)
    requires forall k :: k in rest ==> k in all && rest[k] == all[k]
    ensures rest == all - (all.Keys - rest.Keys)
  {
  }

  lemma OfferMeans(
    rooms: Rooms, m: Meeting, conn: Conn, uid: Uid, signal: SignalId, issued: Instance, o: Outcome)
    ensures var members := MembersOf(rooms, m);
      var prepared := AfterPreparing(members, uid, signal, conn);
      uid !in prepared ==>
        Indexed(rooms[m := prepared], m,
          if o.constructionThrows || o.throws then prepared else prepared[uid := Sess(issued, signal, conn)]) ==
        Indexed(rooms, m, AfterOffer(members, uid, signal, conn, issued, o))
  {
    var members := MembersOf(rooms, m);
    if uid !in AfterPreparing(members, uid, signal, conn) {
      assert AfterPreparing(members, uid, signal, conn) == members - {uid};
      assert (members - {uid})[uid := Sess(issued, signal, conn)] == members[uid := Sess(issued, signal, conn)];
    }
  }

  // ---- Who goes and who comes ----

  /** A member leaves its meeting exactly for these reasons. */
  lemma WhoLeaves(
    rooms: Rooms, m: Meeting, e: Event, stopped: set<Conn>, issued: Instance, o: Outcome, u: Uid)
    requires u in MembersOf(rooms, m)
    ensures var members := MembersOf(rooms, m);
      u !in MembersOf(AfterEvent(rooms, m, e, stopped, issued, o), m) <==>
        match e
        case Signal(conn, kind, uid, signal) =>
          var own := members[u].signal == signal && members[u].conn == conn;
          u == uid && conn !in stopped &&
          (match kind
           case Leave => own
           case Offer => o.throws || (!own && o.constructionThrows)
           case _ => own && o.throws)
        case TrackReady(p, instance, _) =>
          u in o.failed && p in members && members[p].instance == instance && members[p].conn !in stopped
        case LocalSignal(_, _, _, _) => false
        case Disconnected(conn) => conn in stopped && members[u].conn == conn
  {
  }

  /** Whoever is not a member becomes one by an Offer of a live connection that the library accepts. */
  lemma WhoEnters(
    rooms: Rooms, m: Meeting, e: Event, stopped: set<Conn>, issued: Instance, o: Outcome, u: Uid)
    requires u !in MembersOf(rooms, m)
    ensures u in MembersOf(AfterEvent(rooms, m, e, stopped, issued, o), m) <==>
      e.Signal? && e.kind.Offer? && e.uid == u && e.conn !in stopped && !o.constructionThrows && !o.throws
  {
  }

  // ---- Any sequence of events ----

  /** An event of a meeting, and the connections that had stopped when it was begun. */
  datatype Arrival = Arrival(m: Meeting, e: Event, stopped: set<Conn>)

  /** What happened on it, and the number the next session would have got. */
  datatype Handled = Handled(arrival: Arrival, issued: Instance, o: Outcome)

  ghost function AfterAll(history: seq<Handled>): Rooms {
    if history == [] then map[]
    else
      var last := history[|history| - 1];
      AfterEvent(AfterAll(history[..|history| - 1]), last.arrival.m, last.arrival.e, last.arrival.stopped,
                 last.issued, last.o)
  }

  ghost predicate NoOfferRepeats(history: seq<Handled>) {
    forall i :: 0 <= i < |history| ==>
      !Repeats(MembersOf(AfterAll(history[..i]), history[i].arrival.m), history[i].arrival.e)
  }

  lemma OneMore(history: seq<Handled>, last: Handled)
    ensures var a := last.arrival;
      AfterAll(history + [last]) == AfterEvent(AfterAll(history), a.m, a.e, a.stopped, last.issued, last.o)
    ensures NoOfferRepeats(history + [last]) ==>
      NoOfferRepeats(history) && !Repeats(MembersOf(AfterAll(history), last.arrival.m), last.arrival.e)
  {
    hide Repeats, AfterEvent;
    var longer := history + [last];
    assert longer[..|history|] == history && longer[|history|] == last;
    if NoOfferRepeats(longer) {
      forall i | 0 <= i < |history|
        ensures !Repeats(MembersOf(AfterAll(history[..i]), history[i].arrival.m), history[i].arrival.e)
      {
        assert longer[..i] == history[..i] && longer[i] == history[i];
      }
    }
  }

  /** These events have been handled, in this order. */
  ghost predicate Answers(history: seq<Handled>, arrivals: seq<Arrival>) {
    |history| == |arrivals| && forall i :: 0 <= i < |arrivals| ==> history[i].arrival == arrivals[i]
  }

  lemma AnswersMore(history: seq<Handled>, arrivals: seq<Arrival>, last: Handled, i: nat)
    requires i < |arrivals| && Answers(history, arrivals[..i]) && last.arrival == arrivals[i]
    ensures Answers(history + [last], arrivals[..i + 1])
  {
  }

  // ---- Whose session a member's is ----

  /** The connection and the signal number of the last Offer for the uid that was not dropped as stopped. */
  function LastOffer(history: seq<Handled>, m: Meeting, uid: Uid): Option<(Conn, SignalId)> {
    if history == [] then None
    else
      var a := history[|history| - 1].arrival;
      match a.e
      case Signal(conn, Offer, u, signal) =>
        if a.m == m && u == uid && conn !in a.stopped then Some((conn, signal))
        else LastOffer(history[..|history| - 1], m, uid)
      case _ => LastOffer(history[..|history| - 1], m, uid)
  }

  /** What an event leaves of a member that is no Offer of its own. */
  lemma OthersKeepTheirs(members: Members, e: Event, issued: Instance, o: Outcome, uid: Uid)
    requires !(e.Signal? && e.kind.Offer? && e.uid == uid)
    ensures uid in After(members, e, issued, o) ==> uid in members && After(members, e, issued, o)[uid] == members[uid]
  {
  }

  /** An Offer that is carried out leaves a session of its own connection and number: the one there was, if it
      was of just these, and a new one otherwise. */
  lemma OfferOwns(members: Members, uid: Uid, signal: SignalId, conn: Conn, issued: Instance, o: Outcome)
    ensures var next := AfterOffer(members, uid, signal, conn, issued, o);
      var same := uid in members && members[uid].signal == signal && members[uid].conn == conn;
      && (uid in next <==> !o.throws && (same || !o.constructionThrows))
      && (uid in next ==> next[uid] == if same then members[uid] else Sess(issued, signal, conn))
      && forall u :: u != uid ==> (u in next <==> u in members) && (u in members ==> next[u] == members[u])
  {
  }

  /** In whatever order events were handled, a member's session belongs to the last Offer for its uid: no
      earlier negotiation's session is left in its place. */
  lemma {:induction false} SessionsAreOfLastOffer(history: seq<Handled>, m: Meeting, uid: Uid)
    requires uid in MembersOf(AfterAll(history), m)
    ensures var s := MembersOf(AfterAll(history), m)[uid];
      LastOffer(history, m, uid) == Some((s.conn, s.signal))
    decreases |history|
  {
    if history != [] {
      var init, last := history[..|history| - 1], history[|history| - 1];
      var before, a := MembersOf(AfterAll(init), m), last.arrival;
      LastMembers(history, m);
      if a.m == m && Executes(before, a.e, a.stopped) && a.e.Signal? && a.e.kind.Offer? && a.e.uid == uid {
        OfferOwns(before, uid, a.e.signal, a.e.conn, last.issued, last.o);
      } else {
        if a.m == m && Executes(before, a.e, a.stopped) {
          OthersKeepTheirs(before, a.e, last.issued, last.o, uid);
        }
        hide AfterAll, After;
        SessionsAreOfLastOffer(init, m, uid);
      }
    }
  }

  /** An Offer for this uid with this number. */
  predicate Offers(h: Handled, m: Meeting, uid: Uid, signal: SignalId) {
    h.arrival.m == m && h.arrival.e.Signal? && h.arrival.e.kind.Offer? && h.arrival.e.uid == uid &&
    h.arrival.e.signal == signal
  }

  lemma {:induction false} LastOfferWasMade(history: seq<Handled>, m: Meeting, uid: Uid) returns (k: nat)
    requires LastOffer(history, m, uid).Some?
    ensures k < |history| && Offers(history[k], m, uid, LastOffer(history, m, uid).value.1)
    decreases |history|
  {
    var n := |history| - 1;
    var a := history[n].arrival;
    if a.e.Signal? && a.e.kind.Offer? && a.m == m && a.e.uid == uid && a.e.conn !in a.stopped {
      k := n;
    } else {
      k := LastOfferWasMade(history[..n], m, uid);
    }
  }

  /** If no number is offered twice for a uid of a meeting, as the realtime server numbers Offers, then none of
      them repeats an earlier one of a session that still exists. */
  lemma NewNumbersNeverRepeat(history: seq<Handled>)
    requires forall m, uid, signal, i, j ::
      0 <= i < j < |history| && Offers(history[i], m, uid, signal) ==> !Offers(history[j], m, uid, signal)
    ensures NoOfferRepeats(history)
  {
    forall i | 0 <= i < |history|
      ensures !Repeats(MembersOf(AfterAll(history[..i]), history[i].arrival.m), history[i].arrival.e)
    {
      var a := history[i].arrival;
      if Repeats(MembersOf(AfterAll(history[..i]), a.m), a.e) {
        assert Offers(history[i], a.m, a.e.uid, a.e.signal);
        var k := RepeatedOffer(history[..i], a.m, a.e);
      }
    }
  }

  lemma RepeatedOffer(history: seq<Handled>, m: Meeting, e: Event) returns (k: nat)
    requires Repeats(MembersOf(AfterAll(history), m), e)
    ensures k < |history| && Offers(history[k], m, e.uid, e.signal)
  {
    SessionsAreOfLastOffer(history, m, e.uid);
    k := LastOfferWasMade(history, m, e.uid);
  }

  /** So it is for all members of a meeting. */
  ghost predicate OfLastOffers(history: seq<Handled>, m: Meeting, members: Members) {
    forall uid :: uid in members ==>
      LastOffer(history, m, uid) == Some((members[uid].conn, members[uid].signal))
  }

  lemma MembersAreOfLastOffers(history: seq<Handled>, m: Meeting)
    ensures OfLastOffers(history, m, MembersOf(AfterAll(history), m))
  {
    var members := MembersOf(AfterAll(history), m);
    forall uid | uid in members
      ensures LastOffer(history, m, uid) == Some((members[uid].conn, members[uid].signal))
    {
      SessionsAreOfLastOffer(history, m, uid);
    }
  }

  lemma LastMembers(history: seq<Handled>, m: Meeting)
    requires history != []
    ensures var before, last := MembersOf(AfterAll(history[..|history| - 1]), m), history[|history| - 1];
      var a := last.arrival;
      MembersOf(AfterAll(history), m) == if a.m == m && Executes(before, a.e, a.stopped)
        then After(before, a.e, last.issued, last.o) else before
  {
    hide After, Executes;
  }
}
