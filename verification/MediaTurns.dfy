/**
 The room workers of the media server in any interleaving: handlers of different meetings begin, go on and end
 as their threads are scheduled.
 */
module MediaTurns {
  import opened Histories
  import opened MediaTables
  import opened MediaRooms
  import opened MediaLogic
  import opened MediaPhases
  import opened MediaHandlers

  datatype Turn =
    | Arrive(arrival: Arrival)    // a worker begins the event
    | Go(m: Meeting)              // the worker that is in a handler for the meeting goes on

  /** The members of all rooms, where the handlers are, and the next instance number. */
  datatype State = State(view: Rooms, active: map<Meeting, Phase>, number: Instance)

  ghost function StateOf(system: LogicSystem): State
    reads system, system.rooms.Values
  {
    State(system.View(), system.active, system.nextInstance)
  }

  function At(s: State, m: Meeting): Phase {
    if m in s.active then s.active[m] else Idle
  }

  /** The same members and phases everywhere but at m; a handler that has ended is in the table no more. */
  ghost predicate SameBut(s: State, t: State, m: Meeting) {
    && s.active - {m} == t.active - {m}
    && (m in t.active ==> t.active[m] != Idle)
    && forall k :: k != m ==> MembersOf(t.view, k) == MembersOf(s.view, k)
  }

  /** What a turn does: an event begins unless its meeting has a handler, for which it waits; a handler takes
      its next step, which brings it nearer to its end. */
  ghost predicate Steps(turn: Turn, s: State, t: State) {
    match turn
    case Arrive(a) =>
      if a.m in s.active then t == s
      else
        && SameBut(s, t, a.m) && MembersOf(t.view, a.m) == MembersOf(s.view, a.m) && t.number == s.number
        && Opens(a.e, MembersOf(s.view, a.m), a.stopped, At(t, a.m))
    case Go(m) =>
      if m !in s.active then t == s
      else
        && SameBut(s, t, m) && Moves(s.active[m], MembersOf(s.view, m), At(t, m), MembersOf(t.view, m), s.number)
        && t.number == s.number + (if Enters(s.active[m], At(t, m)) then 1 else 0)
        && (m in t.active ==> Before(t.active[m], s.active[m]))
  }

  function BegunBy(turn: Turn, s: State): seq<(Meeting, Arrival)> {
    if turn.Arrive? && turn.arrival.m !in s.active then [(turn.arrival.m, turn.arrival)] else []
  }

  /** The events that have begun: those that arrived at a meeting without a handler, in this order. */
  function Begun(turns: seq<Turn>, states: seq<State>): seq<(Meeting, Arrival)>
    requires |turns| <= |states|
  {
    if turns == [] then []
    else Begun(turns[..|turns| - 1], states) + BegunBy(turns[|turns| - 1], states[|turns| - 1])
  }

  /** From the empty server on, each turn has done what it does. */
  ghost predicate IsRun(turns: seq<Turn>, states: seq<State>) {
    && |states| == |turns| + 1 && states[0] == State(map[], map[], 1)
    && forall i :: 0 <= i < |turns| ==> Steps(turns[i], states[i], states[i + 1])
  }

  lemma RunGrows(turns: seq<Turn>, states: seq<State>, turn: Turn, next: State)
    requires IsRun(turns, states) && Steps(turn, states[|turns|], next)
    ensures IsRun(turns + [turn], states + [next])
  {
    hide Steps;
  }

  lemma RunShrinks(turns: seq<Turn>, states: seq<State>)
    requires IsRun(turns, states) && turns != []
    ensures var n := |turns| - 1;
      && IsRun(turns[..n], states[..n + 1]) && Steps(turns[n], states[n], states[n + 1])
      && Begun(turns, states) == Begun(turns[..n], states[..n + 1]) + BegunBy(turns[n], states[n])
  {
    hide Steps, BegunBy;
    BegunOfPrefix(turns[..|turns| - 1], states, states[..|turns|]);
  }

  lemma {:induction false} BegunOfPrefix(turns: seq<Turn>, states: seq<State>, fewer: seq<State>)
    requires |turns| <= |fewer| && fewer <= states
    ensures Begun(turns, states) == Begun(turns, fewer)
  {
    if turns != [] {
      BegunOfPrefix(turns[..|turns| - 1], states, fewer);
    }
  }

  // ---- Whole events ----

  /** An event whose handler is running, the members there were when it began, and the instance number of the
      session that has entered for it, 0 if none has. */
  datatype Current = Current(arrival: Arrival, members: Members, issued: Instance)

  /** What has happened: the events begun, those handled, and those being handled. */
  datatype Book = Book(begun: seq<(Meeting, Arrival)>, history: seq<Handled>, current: map<Meeting, Current>)

  function Arrivals(history: seq<Handled>): seq<(Meeting, Arrival)> {
    seq(|history|, i requires 0 <= i < |history| => (history[i].arrival.m, history[i].arrival))
  }

  /** Where no handler runs, the members are those that the handled events give, one whole event after the
      other; where one runs, it has got as far from there as its phase says. No event is lost. */
  ghost predicate Tracks(s: State, b: Book) {
    b.current.Keys == s.active.Keys && forall m :: TracksAt(s, b, m)
  }

  ghost predicate TracksAt(s: State, b: Book, m: Meeting)
    requires b.current.Keys == s.active.Keys
  {
    if m in s.active then Underway(s.active[m], b.current[m], MembersOf(s.view, m), b, m)
    else MembersOf(s.view, m) == Reached(b, m) && Of(b.begun, m) == Of(Arrivals(b.history), m)
  }

  ghost function Reached(b: Book, m: Meeting): Members {
    MembersOf(AfterAll(b.history), m)
  }

  ghost predicate Underway(p: Phase, c: Current, now: Members, b: Book, m: Meeting) {
    && c.arrival.m == m && c.members == Reached(b, m) && Executes(c.members, c.arrival.e, c.arrival.stopped)
    && p != Idle && Explains(p, c.arrival.e, c.members, now, c.issued)
    && Of(b.begun, m) == Of(Arrivals(b.history), m) + [c.arrival]
  }

  /** No instance number has been issued twice, and none that is still to come. */
  ghost predicate IssuedOnce(b: Book, number: Instance) {
    && (forall i :: 0 <= i < |b.history| ==> b.history[i].issued < number)
    && (forall i, j :: 0 <= i < j < |b.history| && b.history[i].issued == b.history[j].issued ==>
          b.history[i].issued == 0)
    && (forall m :: m in b.current ==> b.current[m].issued < number)
    && (forall m, i :: m in b.current && 0 <= i < |b.history| && b.current[m].issued == b.history[i].issued ==>
          b.history[i].issued == 0)
    && (forall m, k :: m in b.current && k in b.current && m != k && b.current[m].issued == b.current[k].issued ==>
          b.current[m].issued == 0)
  }

  /** The event is over. */
  function Noted(b: Book, last: Handled): Book {
    b.(history := b.history + [last], current := b.current - {last.arrival.m})
  }

  lemma NotedEffect(b: Book, last: Handled, k: Meeting)
    ensures var a := last.arrival;
      Reached(Noted(b, last), k) == if k == a.m && Executes(Reached(b, k), a.e, a.stopped)
        then After(Reached(b, k), a.e, last.issued, last.o) else Reached(b, k)
    ensures Of(Arrivals(Noted(b, last).history), k)
         == Of(Arrivals(b.history), k) + if last.arrival.m == k then [last.arrival] else []
  {
    hide AfterAll, AfterEvent, Executes, After, MembersOf, Of;
    var a := last.arrival;
    OneMore(b.history, last);
    EventAt(AfterAll(b.history), a, last.issued, last.o, k);
    assert Arrivals(b.history + [last]) == Arrivals(b.history) + [(a.m, a)];
    OfAppend(Arrivals(b.history), (a.m, a), k);
    hide Arrivals;
  }

  lemma EventAt(rooms: Rooms, a: Arrival, issued: Instance, o: Outcome, k: Meeting)
    ensures MembersOf(AfterEvent(rooms, a.m, a.e, a.stopped, issued, o), k)
         == if k == a.m && Executes(MembersOf(rooms, k), a.e, a.stopped)
            then After(MembersOf(rooms, k), a.e, issued, o) else MembersOf(rooms, k)
  {
    hide Executes, After;
  }

  lemma NotedIssuedOnce(b: Book, last: Handled, number: Instance)
    requires IssuedOnce(b, number)
    requires last.issued == if last.arrival.m in b.current then b.current[last.arrival.m].issued else 0
    requires number > 0
    ensures IssuedOnce(Noted(b, last), number)
  {
  }

  lemma PutIssuedOnce(b: Book, b': Book, m: Meeting, c: Current, number: Instance, next: Instance)
    requires IssuedOnce(b, number) && number > 0 && b'.history == b.history && b'.current == b.current[m := c]
    requires (next == number && (c.issued == 0 || (m in b.current && c.issued == b.current[m].issued))) ||
             (next == number + 1 && c.issued == number)
    ensures IssuedOnce(b', next)
  {
  }

  /** What is recorded of an event that has come to its end. */
  lemma EndOf(c: Current, now: Members) returns (last: Handled)
    requires var a := c.arrival;
      if Executes(c.members, a.e, a.stopped) then Done(a.e, c.members, now, c.issued) else now == c.members
    ensures last.arrival == c.arrival && last.issued == c.issued
    ensures var a := c.arrival;
      now == if Executes(c.members, a.e, a.stopped) then After(c.members, a.e, last.issued, last.o) else c.members
  {
    last := Handled(c.arrival, c.issued, Outcome(false, false, {}));
    if Executes(c.members, c.arrival.e, c.arrival.stopped) {
      var o :| now == After(c.members, c.arrival.e, c.issued, o);
      last := Handled(c.arrival, c.issued, o);
    }
  }

  /** What is known of a meeting is not touched by what happens at another. */
  lemma ElsewhereSame(s: State, b: Book, t: State, b': Book, m: Meeting, k: Meeting)
    requires Tracks(s, b) && SameBut(s, t, m) && k != m
    requires b'.current.Keys == t.active.Keys && b'.current - {m} == b.current - {m}
    requires Reached(b', k) == Reached(b, k) && Of(b'.begun, k) == Of(b.begun, k)
    requires Of(Arrivals(b'.history), k) == Of(Arrivals(b.history), k)
    ensures TracksAt(t, b', k)
  {
    assert TracksAt(s, b, k);
    assert k in s.active <==> k in s.active - {m};
    assert k in t.active <==> k in t.active - {m};
    if k in s.active {
      assert (s.active - {m})[k] == s.active[k] && (t.active - {m})[k] == t.active[k];
      assert (b.current - {m})[k] == b.current[k] && (b'.current - {m})[k] == b'.current[k];
    }
    hide Explains, Executes, MembersOf, Reached, Of, Arrivals;
  }

  lemma SameKeys(s: State, b: Book, t: State, m: Meeting)
    requires Tracks(s, b) && SameBut(s, t, m)
    ensures b.current.Keys == s.active.Keys && s.active - {m} == t.active - {m}
  {
  }

  lemma BookKeys(active: map<Meeting, Phase>, active': map<Meeting, Phase>, b: Book, b': Book, m: Meeting)
    requires b.current.Keys == active.Keys && active - {m} == active' - {m}
    requires b'.current - {m} == b.current - {m} && (m in b'.current <==> m in active')
    ensures b'.current.Keys == active'.Keys && b'.current - {m} == b.current - {m}
  {
    forall k
      ensures k in b'.current <==> k in active'
    {
      if k != m {
        assert k in b'.current - {m} <==> k in b.current - {m};
        assert k in active' - {m} <==> k in active - {m};
        assert k in b.current.Keys <==> k in active.Keys;
      }
    }
  }

  lemma AllTracked(s: State, b: Book)
    requires b.current.Keys == s.active.Keys && forall m :: TracksAt(s, b, m)
    ensures Tracks(s, b)
  {
  }

  lemma BeginTracks(s: State, b: Book, t: State, a: Arrival) returns (b': Book)
    requires Tracks(s, b) && IssuedOnce(b, s.number) && s.number > 0 && a.m !in s.active && Steps(Arrive(a), s, t)
    ensures Tracks(t, b') && IssuedOnce(b', t.number) && b'.begun == b.begun + [(a.m, a)]
  {
    var m, members := a.m, MembersOf(s.view, a.m);
    assert TracksAt(s, b, m);
    if Executes(members, a.e, a.stopped) {
      OpenExplains(a.e, members, a.stopped, At(t, m));
    }
    b' := Entered(s, b, t, a);
    hide Explains, MembersOf, Of, Arrivals, After, Tracks, SameBut, Executes, Opens, AfterAll, IssuedOnce;
    BookKeys(s.active, t.active, b, b', m) by { SameKeys(s, b, t, m); }
    forall k | k != m
      ensures TracksAt(t, b', k)
    {
      ElsewhereSame(s, b, t, b', m, k);
    }
    AllTracked(t, b');
  }

  /** The event of m is in the book, which is brought up to date with where its handler is now. */
  lemma Settles(t: State, b: Book, m: Meeting) returns (b': Book)
    requires m in b.current && IssuedOnce(b, t.number) && t.number > 0
    requires var c, now := b.current[m], MembersOf(t.view, m);
      && c.arrival.m == m && c.members == Reached(b, m)
      && Of(b.begun, m) == Of(Arrivals(b.history), m) + [c.arrival]
      && if m in t.active then Underway(t.active[m], c, now, b, m)
         else if Executes(c.members, c.arrival.e, c.arrival.stopped) then Done(c.arrival.e, c.members, now, c.issued)
         else now == c.members
    ensures b'.begun == b.begun && (m in b'.current <==> m in t.active)
    ensures b'.current - {m} == b.current - {m} && IssuedOnce(b', t.number)
    ensures b'.current.Keys == t.active.Keys ==> TracksAt(t, b', m)
    ensures forall k :: k != m ==>
      Reached(b', k) == Reached(b, k) && Of(Arrivals(b'.history), k) == Of(Arrivals(b.history), k)
  {
    hide MembersOf, Of, Arrivals, After, Executes, Done, AfterAll, Reached, Underway, IssuedOnce;
    b' := b;
    if m !in t.active {
      var last := EndOf(b.current[m], MembersOf(t.view, m));
      b' := Noted(b, last);
      NotedIssuedOnce(b, last, t.number);
      NotedEffect(b, last, m);
      forall k | k != m
        ensures Reached(b', k) == Reached(b, k) && Of(Arrivals(b'.history), k) == Of(Arrivals(b.history), k)
      {
        NotedEffect(b, last, k);
      }
    }
  }

  /** The entry for an event that begins. */
  lemma Entered(s: State, b: Book, t: State, a: Arrival) returns (b': Book)
    requires Tracks(s, b) && IssuedOnce(b, s.number) && s.number > 0 && a.m !in s.active
    requires MembersOf(t.view, a.m) == MembersOf(s.view, a.m) && t.number == s.number
    requires a.m in t.active ==> t.active[a.m] != Idle
    requires Executes(MembersOf(s.view, a.m), a.e, a.stopped) ==>
      Explains(At(t, a.m), a.e, MembersOf(s.view, a.m), MembersOf(s.view, a.m), 0)
    requires !Executes(MembersOf(s.view, a.m), a.e, a.stopped) ==> At(t, a.m) == Idle
    ensures b'.begun == b.begun + [(a.m, a)] && (a.m in b'.current <==> a.m in t.active)
    ensures b'.current - {a.m} == b.current - {a.m} && IssuedOnce(b', t.number)
    ensures b'.current.Keys == t.active.Keys ==> TracksAt(t, b', a.m)
    ensures forall k :: k != a.m ==>
      Reached(b', k) == Reached(b, k) && Of(b'.begun, k) == Of(b.begun, k) &&
      Of(Arrivals(b'.history), k) == Of(Arrivals(b.history), k)
  {
    hide MembersOf, Arrivals, Tracks, Executes, AfterAll, IssuedOnce, After, Explains, Reached, Of;
    var m := a.m;
    var c := Current(a, MembersOf(s.view, m), 0);
    IdleAt(s, b, m);
    var more := b.(begun := b.begun + [(m, a)], current := b.current[m := c]);
    PutIssuedOnce(b, more, m, c, s.number, s.number);
    forall k ensures Of(more.begun, k) == Of(b.begun, k) + if k == m then [a] else [] {
      OfAppend(b.begun, (m, a), k);
    }
    SameHistory(b, more);
    IdleIsOver(At(t, m), c, c.members);
    b' := Settles(t, more, m);
  }

  lemma IdleAt(s: State, b: Book, m: Meeting)
    requires Tracks(s, b) && m !in s.active
    ensures m !in b.current && MembersOf(s.view, m) == Reached(b, m) && Of(b.begun, m) == Of(Arrivals(b.history), m)
  {
    assert TracksAt(s, b, m);
  }

  lemma ActiveAt(s: State, b: Book, m: Meeting)
    requires Tracks(s, b) && m in s.active
    ensures m in b.current && Underway(s.active[m], b.current[m], MembersOf(s.view, m), b, m)
  {
    assert TracksAt(s, b, m);
  }

  lemma SameHistory(b: Book, b': Book)
    requires b'.history == b.history
    ensures forall k :: Reached(b', k) == Reached(b, k)
  {
    hide MembersOf, AfterAll;
  }

  lemma GoTracks(s: State, b: Book, t: State, m: Meeting) returns (b': Book)
    requires Tracks(s, b) && IssuedOnce(b, s.number) && s.number > 0 && m in s.active && Steps(Go(m), s, t)
    ensures Tracks(t, b') && IssuedOnce(b', t.number) && b'.begun == b.begun
  {
    assert TracksAt(s, b, m);
    var c, p, q, now := b.current[m], s.active[m], At(t, m), MembersOf(t.view, m);
    MoveExplains(p, c.arrival.e, c.members, MembersOf(s.view, m), c.issued, q, now, s.number);
    var further := c.(issued := if Enters(p, q) then s.number else c.issued);
    b' := Moved(s, b, t, m, further);
    hide MembersOf, Of, Arrivals, After, Tracks, SameBut, Moves, Executes, AfterAll, Explains, IssuedOnce;
    BookKeys(s.active, t.active, b, b', m) by { SameKeys(s, b, t, m); }
    forall k | k != m
      ensures TracksAt(t, b', k)
    {
      ElsewhereSame(s, b, t, b', m, k);
    }
    AllTracked(t, b');
  }

  /** The entry for a handler that has gone on. */
  lemma Moved(s: State, b: Book, t: State, m: Meeting, c: Current) returns (b': Book)
    requires Tracks(s, b) && IssuedOnce(b, s.number) && s.number > 0 && m in s.active
    requires var was := b.current[m];
      && c == was.(issued := c.issued)
      && ((t.number == s.number && c.issued == was.issued) || (t.number == s.number + 1 && c.issued == s.number))
      && Explains(At(t, m), c.arrival.e, c.members, MembersOf(t.view, m), c.issued)
    requires m in t.active ==> t.active[m] != Idle
    ensures b'.begun == b.begun && (m in b'.current <==> m in t.active)
    ensures b'.current - {m} == b.current - {m} && IssuedOnce(b', t.number)
    ensures b'.current.Keys == t.active.Keys ==> TracksAt(t, b', m)
    ensures forall k :: k != m ==>
      Reached(b', k) == Reached(b, k) && Of(Arrivals(b'.history), k) == Of(Arrivals(b.history), k)
  {
    hide MembersOf, Of, Arrivals, After, Tracks, Executes, AfterAll, IssuedOnce, Reached;
    ActiveAt(s, b, m);
    var more := b.(current := b.current[m := c]);
    PutIssuedOnce(b, more, m, c, s.number, t.number);
    SameHistory(b, more);
    IdleIsOver(At(t, m), c, MembersOf(t.view, m));
    hide Explains;
    b' := Settles(t, more, m);
  }

  lemma IdleIsOver(p: Phase, c: Current, now: Members)
    ensures p == Idle && Explains(p, c.arrival.e, c.members, now, c.issued) ==>
      Done(c.arrival.e, c.members, now, c.issued)
  {
  }

  /** Every run can be read as whole events: those that have begun, each handled after the earlier ones of its
      meeting, but for the events that are still being handled. */
  lemma {:induction false} RunTracks(turns: seq<Turn>, states: seq<State>) returns (b: Book)
    requires IsRun(turns, states)
    ensures Tracks(states[|turns|], b) && b.begun == Begun(turns, states)
    ensures states[|turns|].number > 0 && IssuedOnce(b, states[|turns|].number)
  {
    if turns == [] {
      b := Book([], [], map[]);
      NothingYet();
    } else {
      var n := |turns| - 1;
      RunShrinks(turns, states);
      var before := RunTracks(turns[..n], states[..n + 1]);
      hide Tracks, IssuedOnce;
      b := TurnTracks(turns[n], states[n], before, states[n + 1]);
    }
  }

  lemma TurnTracks(turn: Turn, s: State, b: Book, t: State) returns (b': Book)
    requires Tracks(s, b) && IssuedOnce(b, s.number) && s.number > 0 && Steps(turn, s, t)
    ensures Tracks(t, b') && IssuedOnce(b', t.number) && t.number > 0 && b'.begun == b.begun + BegunBy(turn, s)
  {
    hide Tracks, IssuedOnce, SameBut, Moves, Opens;
    b' := b;
    match turn {
      case Arrive(a) => if a.m !in s.active { b' := BeginTracks(s, b, t, a); }
      case Go(m) => if m in s.active { b' := GoTracks(s, b, t, m); }
    }
  }

  lemma NothingYet()
    ensures Tracks(State(map[], map[], 1), Book([], [], map[])) && IssuedOnce(Book([], [], map[]), 1)
  {
    assert Arrivals([]) == [];
  }

  // ---- On the room objects ----

  method TakeTurn(system: LogicSystem, turn: Turn)
    requires system.Valid()
    modifies system, system.rooms.Values, system.Sessions()
    ensures system.Valid() && Steps(turn, old(StateOf(system)), StateOf(system))
    ensures fresh(system.rooms.Values - old(system.rooms.Values))
    ensures forall s :: s in system.Sessions() ==> s in old(system.Sessions()) || fresh(s)
  {
    hide LogicSystem.Valid, LogicSystem.View, LogicSystem.Sessions, MembersOf, Moves, Opens, Before, Enters;
    match turn {
      case Arrive(a) =>
        if a.m !in system.active {
          system.BeginEvent(a.m, a.e, a.stopped);
        }
      case Go(m) =>
        if m in system.active {
          system.Continue(m);
        }
    }
  }

  /** Whatever events arrive while handlers of other meetings are half-way through, and however the workers
      take turns: each turn does what it does, and every room whose handler is not running is settled and not
      empty, with exactly the members that the events begun at its meeting give, each handled whole in the
      order in which they began. The other rooms are where their handlers left them. No two sessions get the
      same instance number. */
  method ServeInterleaved(turns: seq<Turn>)
    returns (system: LogicSystem, ghost states: seq<State>, ghost b: Book)
    ensures system.Valid() && IsRun(turns, states) && states[|turns|] == StateOf(system)
    ensures forall m :: m in system.rooms && m !in system.active ==>
      system.rooms[m].Settled() && system.rooms[m].peers != map[]
    ensures b.begun == Begun(turns, states) && Tracks(StateOf(system), b) && IssuedOnce(b, system.nextInstance)
    ensures forall m :: m !in system.active ==>
      MembersOf(system.View(), m) == Reached(b, m) && Of(Arrivals(b.history), m) == Of(b.begun, m)
    ensures forall m :: m !in system.active ==> OfLastOffers(b.history, m, MembersOf(system.View(), m))
  {
    system, states := TakeTurns(turns);
    b := RunTracks(turns, states);
    system.SettledWhereIdle();
    TracksIdle(StateOf(system), b);
    hide LogicSystem.Valid, LogicSystem.View, Tracks, IsRun, IssuedOnce, AfterAll, Of, OfLastOffers;
    forall m | m !in system.active
      ensures OfLastOffers(b.history, m, MembersOf(system.View(), m))
    {
      MembersAreOfLastOffers(b.history, m);
    }
  }

  method TakeTurns(turns: seq<Turn>) returns (system: LogicSystem, ghost states: seq<State>)
    ensures system.Valid() && IsRun(turns, states) && states[|turns|] == StateOf(system)
  {
    system := Begins();
    states := [StateOf(system)];
    assert IsRun(turns[..0], states);
    hide LogicSystem.Valid, LogicSystem.View, LogicSystem.Sessions, StateOf, IsRun, Steps;
    for i := 0 to |turns|
      invariant fresh(system) && fresh(system.rooms.Values) && fresh(system.Sessions())
      invariant system.Valid() && IsRun(turns[..i], states) && |states| == i + 1 && states[i] == StateOf(system)
    {
      TakeTurn(system, turns[i]);
      RunGrows(turns[..i], states, turns[i], StateOf(system));
      assert turns[..i] + [turns[i]] == turns[..i + 1];
      states := states + [StateOf(system)];
    }
    assert turns[..|turns|] == turns;
  }

  method Begins() returns (system: LogicSystem)
    ensures system.Valid() && StateOf(system) == State(map[], map[], 1)
    ensures fresh(system) && fresh(system.rooms.Values) && fresh(system.Sessions())
  {
    system := new LogicSystem();
    hide LogicSystem.Valid, LogicSystem.View, LogicSystem.Sessions;
  }

  lemma TracksIdle(s: State, b: Book)
    requires Tracks(s, b)
    ensures forall m :: m !in s.active ==>
      MembersOf(s.view, m) == Reached(b, m) && Of(Arrivals(b.history), m) == Of(b.begun, m)
  {
    forall m | m !in s.active
      ensures MembersOf(s.view, m) == Reached(b, m) && Of(Arrivals(b.history), m) == Of(b.begun, m)
    {
      assert TracksAt(s, b, m);
    }
  }
}
