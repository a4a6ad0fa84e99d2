/** Runs of the media server's control plane: connections that stop at any moment, their queued and
    in-flight signals, and the room workers. */
module MediaLogicRuns {
  import opened MediaTables
  import opened MediaRooms
  import opened MediaLogic

  /** Where the reading thread of a connection is. */
  datatype Phase =
    | Reading
    | Checked(m: Meeting, e: Event)      // the connection was not stopped when this signal arrived
    | Remembered(m: Meeting, e: Event)   // the meeting is recorded, the signal not yet posted
    | Notifying(todo: set<Meeting>)      // reading has ended, disconnect events are being posted

  datatype Link = Link(stopped: bool, meetings: set<Meeting>, phase: Phase)

  datatype World = World(
    links: map<Conn, Link>,
    queues: map<Meeting, seq<Event>>,
    executing: map<Meeting, Event>,
    rooms: Rooms,
    nextInstance: Instance,
    cleaned: set<(Conn, Meeting)>)       // disconnect events that have been executed

  datatype Step =
    | Accept(c: Conn)
    | Stop(c: Conn)
    | Check(c: Conn, m: Meeting, e: Event)
    | Remember(c: Conn)
    | PostSignal(c: Conn)
    | EndReading(c: Conn)
    | Notify(c: Conn, m: Meeting)
    | Callback(m: Meeting, e: Event)
    | Begin(m: Meeting)
    | Finish(m: Meeting, o: Outcome)

  function Start(): World {
    World(map[], map[], map[], map[], 1, {})
  }

  function Queue(w: World, m: Meeting): seq<Event> {
    if m in w.queues then w.queues[m] else []
  }

  function Enqueue(w: World, m: Meeting, e: Event): World {
    w.(queues := w.queues[m := Queue(w, m) + [e]])
  }

  function Stopped(w: World): set<Conn> {
    set c | c in w.links && w.links[c].stopped
  }

  predicate Enabled(w: World, step: Step) {
    match step
    case Accept(c) => c !in w.links
    case Stop(c) => c in w.links
    case Check(c, _, e) =>
      c in w.links && w.links[c].phase.Reading? && !w.links[c].stopped && e.Signal? && e.conn == c
    case Remember(c) => c in w.links && w.links[c].phase.Checked?
    case PostSignal(c) => c in w.links && w.links[c].phase.Remembered?
    case EndReading(c) => c in w.links && w.links[c].phase.Reading?
    case Notify(c, m) => c in w.links && w.links[c].phase.Notifying? && m in w.links[c].phase.todo
    case Callback(_, e) => e.TrackReady? || e.LocalSignal?
    case Begin(m) => m !in w.executing && Queue(w, m) != []
    case Finish(m, _) => m in w.executing
  }

  function SetLink(w: World, c: Conn, link: Link): World {
    w.(links := w.links[c := link])
  }

  function Next(w: World, step: Step): World
    requires Enabled(w, step)
  {
    match step
    case Accept(c) => SetLink(w, c, Link(false, {}, Reading))
    case Stop(c) => SetLink(w, c, w.links[c].(stopped := true))
    case Check(c, m, e) => SetLink(w, c, w.links[c].(phase := Checked(m, e)))
    case Remember(c) =>
      var p := w.links[c].phase;
      SetLink(w, c, w.links[c].(meetings := w.links[c].meetings + {p.m}, phase := Remembered(p.m, p.e)))
    case PostSignal(c) =>
      Enqueue(SetLink(w, c, w.links[c].(phase := Reading)), w.links[c].phase.m, w.links[c].phase.e)
    case EndReading(c) => SetLink(w, c, w.links[c].(stopped := true, phase := Notifying(w.links[c].meetings)))
    case Notify(c, m) =>
      Enqueue(SetLink(w, c, w.links[c].(phase := Notifying(w.links[c].phase.todo - {m}))), m, Disconnected(c))
    case Callback(m, e) => Enqueue(w, m, e)
    case Begin(m) =>
      var e := Queue(w, m)[0];
      w.(queues := w.queues[m := Queue(w, m)[1..]],
         executing := if Executes(MembersOf(w.rooms, m), e, Stopped(w)) then w.executing[m := e] else w.executing)
    case Finish(m, o) =>
      var e := w.executing[m];
      w.(executing := w.executing - {m},
         rooms := Indexed(w.rooms, m, After(MembersOf(w.rooms, m), e, w.nextInstance, o)),
         nextInstance := w.nextInstance + 1,
         cleaned := if e.Disconnected? then w.cleaned + {(e.conn, m)} else w.cleaned)
  }

  // ---- The invariant ----

  /** The events of a meeting that are not finished: the one being executed, then the queued ones. */
  function Line(w: World, m: Meeting): seq<Event> {
    (if m in w.executing then [w.executing[m]] else []) + Queue(w, m)
  }

  ghost predicate LinksSane(w: World) {
    forall c :: c in w.links ==>
      && (w.links[c].phase.Checked? || w.links[c].phase.Remembered? ==>
            w.links[c].phase.e.Signal? && w.links[c].phase.e.conn == c)
      && (w.links[c].phase.Remembered? ==> w.links[c].phase.m in w.links[c].meetings)
      && (w.links[c].phase.Notifying? ==> w.links[c].stopped)
  }

  /** The reading thread of c has ended, so c posts nothing but disconnect events. */
  predicate Ended(w: World, c: Conn) {
    c in w.links && w.links[c].phase.Notifying?
  }

  predicate Knows(w: World, c: Conn, m: Meeting) {
    c in w.links && m in w.links[c].meetings
  }

  predicate EventSound(w: World, m: Meeting, e: Event) {
    && (e.Signal? ==> Knows(w, e.conn, m) && (e.conn, m) !in w.cleaned)
    && (e.Disconnected? ==> Ended(w, e.conn))
  }

  /** Behind a disconnect event of a connection there is no signal of it. */
  ghost predicate DisconnectIsLast(line: seq<Event>) {
    forall i, j :: 0 <= i < j < |line| && line[i].Disconnected? && line[j].Signal? ==> line[i].conn != line[j].conn
  }

  ghost predicate LineSound(w: World, m: Meeting, line: seq<Event>) {
    DisconnectIsLast(line) && forall i :: 0 <= i < |line| ==> EventSound(w, m, line[i])
  }

  ghost predicate LinesSound(w: World) {
    && (forall m :: LineSound(w, m, Line(w, m)))
    && (forall c, m :: (c, m) in w.cleaned ==> Ended(w, c))
  }

  /** Whoever is in a room came over a connection that knows the meeting and is not cleaned up. */
  ghost predicate MembersKnown(w: World) {
    forall m, u :: m in w.rooms && u in w.rooms[m] ==>
      Knows(w, w.rooms[m][u].conn, m) && (w.rooms[m][u].conn, m) !in w.cleaned
  }

  ghost predicate IndexSound(w: World) {
    && (forall m :: m in w.rooms ==> w.rooms[m] != map[])
    && (forall m, u :: m in w.rooms && u in w.rooms[m] ==> w.rooms[m][u].instance < w.nextInstance)
  }

  ghost predicate Inv(w: World) {
    LinksSane(w) && LinesSound(w) && MembersKnown(w) && IndexSound(w)
  }

  lemma StartInv()
    ensures Inv(Start())
  {
  }

  lemma StepKeepsLinks(w: World, step: Step)
    requires LinksSane(w) && Enabled(w, step)
    ensures LinksSane(Next(w, step))
  {
  }

  lemma KnowledgeGrows(w: World, step: Step)
    requires LinksSane(w) && Enabled(w, step)
    ensures forall c, m :: Knows(w, c, m) ==> Knows(Next(w, step), c, m)
    ensures forall c :: Ended(w, c) ==> Ended(Next(w, step), c)
  {
  }

  /** How a step changes the line of a meeting. */
  lemma LineEffect(w: World, step: Step, m: Meeting)
    requires Enabled(w, step)
    ensures var line, line' := Line(w, m), Line(Next(w, step), m);
      match step
      case PostSignal(c) => line' == if m == w.links[c].phase.m then line + [w.links[c].phase.e] else line
      case Notify(c, k) => line' == if m == k then line + [Disconnected(c)] else line
      case Callback(k, e) => line' == if m == k then line + [e] else line
      case Begin(k) =>
        line' == if m == k && !Executes(MembersOf(w.rooms, m), line[0], Stopped(w)) then line[1..] else line
      case Finish(k, _) => line' == if m == k then line[1..] else line
      case _ => line' == line
  {
  }

  lemma SoundAppend(w: World, m: Meeting, line: seq<Event>, e: Event)
    requires LineSound(w, m, line) && EventSound(w, m, e)
    requires e.Signal? ==> !Ended(w, e.conn)
    ensures LineSound(w, m, line + [e])
  {
    forall i, j | 0 <= i < j < |line + [e]| && (line + [e])[i].Disconnected? && (line + [e])[j].Signal?
      ensures (line + [e])[i].conn != (line + [e])[j].conn
    {
      assert EventSound(w, m, line[i]);
    }
  }

  /** Steps only add knowledge about links; what the cleaned set gains is the front of its line. */
  lemma SoundStays(w: World, step: Step, m: Meeting, line: seq<Event>)
    requires LinksSane(w) && Enabled(w, step) && LineSound(w, m, line)
    requires step.Finish? && m == step.m ==> DisconnectIsLast([w.executing[m]] + line)
    ensures LineSound(Next(w, step), m, line)
  {
    KnowledgeGrows(w, step);
    var next := Next(w, step);
    forall i | 0 <= i < |line|
      ensures EventSound(next, m, line[i])
    {
      assert EventSound(w, m, line[i]);
      if step.Finish? && m == step.m {
        assert ([w.executing[m]] + line)[0] == w.executing[m] && ([w.executing[m]] + line)[i + 1] == line[i];
      }
    }
  }

  lemma StepKeepsLines(w: World, step: Step)
    requires LinksSane(w) && LinesSound(w) && Enabled(w, step)
    ensures LinesSound(Next(w, step))
  {
    KnowledgeGrows(w, step);
    var next := Next(w, step);
    forall m
      ensures LineSound(next, m, Line(next, m))
    {
      LineEffect(w, step, m);
      var line := Line(w, m);
      assert LineSound(w, m, line);
      match step
      case PostSignal(c) =>
        assert !Ended(next, c);
        SoundStays(w, step, m, line);
        if m == w.links[c].phase.m {
          assert (c, m) !in w.cleaned;
          SoundAppend(next, m, line, w.links[c].phase.e);
        }
      case Notify(c, k) =>
        SoundStays(w, step, m, line);
        if m == k {
          SoundAppend(next, m, line, Disconnected(c));
        }
      case Callback(k, e) =>
        SoundStays(w, step, m, line);
        if m == k {
          SoundAppend(next, m, line, e);
        }
      case Begin(k) =>
        SoundStays(w, step, m, line);
      case Finish(k, _) =>
        if m == k {
          assert line == [w.executing[m]] + Queue(w, m);
          SoundStays(w, step, m, Queue(w, m));
        } else {
          SoundStays(w, step, m, line);
        }
      case _ =>
        SoundStays(w, step, m, line);
    }
    CleanedAreEnded(w, step);
  }

  lemma CleanedAreEnded(w: World, step: Step)
    requires LinksSane(w) && LinesSound(w) && Enabled(w, step)
    ensures forall c, m :: (c, m) in Next(w, step).cleaned ==> Ended(Next(w, step), c)
  {
    KnowledgeGrows(w, step);
    if step.Finish? {
      assert LineSound(w, step.m, Line(w, step.m));
      assert Line(w, step.m)[0] == w.executing[step.m];
    }
  }

  lemma FinishKeepsMembers(w: World, m: Meeting, o: Outcome)
    requires Inv(w) && m in w.executing
    ensures MembersKnown(Next(w, Finish(m, o))) && IndexSound(Next(w, Finish(m, o)))
  {
    assert LineSound(w, m, Line(w, m));
    assert Line(w, m)[0] == w.executing[m];
    var next := Next(w, Finish(m, o));
    forall k, u | k in next.rooms && u in next.rooms[k]
      ensures Knows(next, next.rooms[k][u].conn, k) && (next.rooms[k][u].conn, k) !in next.cleaned
      ensures next.rooms[k][u].instance < next.nextInstance
    {
      assert k != m ==> k in w.rooms && u in w.rooms[k];
    }
  }

  lemma StepKeepsMembers(w: World, step: Step)
    requires Inv(w) && Enabled(w, step)
    ensures MembersKnown(Next(w, step)) && IndexSound(Next(w, step))
  {
    KnowledgeGrows(w, step);
    if step.Finish? {
      FinishKeepsMembers(w, step.m, step.o);
    }
  }

  lemma StepKeepsInv(w: World, step: Step)
    requires Inv(w) && Enabled(w, step)
    ensures Inv(Next(w, step))
  {
    StepKeepsLinks(w, step);
    StepKeepsLines(w, step);
    StepKeepsMembers(w, step);
  }

  // ---- Runs ----

  ghost predicate Feasible(w: World, steps: seq<Step>)
    decreases |steps|
  {
    steps == [] || (Enabled(w, steps[0]) && Feasible(Next(w, steps[0]), steps[1..]))
  }

  ghost function Run(w: World, steps: seq<Step>): World
    requires Feasible(w, steps)
    decreases |steps|
  {
    if steps == [] then w else Run(Next(w, steps[0]), steps[1..])
  }

  lemma {:induction false} RunKeepsInv(w: World, steps: seq<Step>)
    requires Inv(w) && Feasible(w, steps)
    ensures Inv(Run(w, steps))
    decreases |steps|
  {
    if steps != [] {
      StepKeepsInv(w, steps[0]);
      RunKeepsInv(Next(w, steps[0]), steps[1..]);
    }
  }

  ghost predicate OwnsNothing(w: World, c: Conn) {
    forall m, u :: m in w.rooms && u in w.rooms[m] ==> w.rooms[m][u].conn != c
  }

  /** Once the disconnect events of a connection have been executed, no room holds a session of it,
      whatever signals were queued or in flight when it stopped; no empty room is ever indexed. */
  lemma GoneConnectionsOwnNothing(steps: seq<Step>, c: Conn)
    requires Feasible(Start(), steps)
    requires var w := Run(Start(), steps); forall m :: Knows(w, c, m) ==> (c, m) in w.cleaned
    ensures var w := Run(Start(), steps);
      OwnsNothing(w, c) && forall m :: m in w.rooms ==> w.rooms[m] != map[]
  {
    StartInv();
    RunKeepsInv(Start(), steps);
  }

  /** ... and it stays that way for the rest of the run. */
  lemma {:induction false} CleanedStays(w: World, steps: seq<Step>, c: Conn)
    requires Inv(w) && Feasible(w, steps) && Ended(w, c)
    requires forall m :: Knows(w, c, m) ==> (c, m) in w.cleaned
    ensures OwnsNothing(Run(w, steps), c)
    decreases |steps|
  {
    if steps == [] {
      assert MembersKnown(w);
    } else {
      StepKeepsInv(w, steps[0]);
      KnowledgeGrows(w, steps[0]);
      CleanedStays(Next(w, steps[0]), steps[1..], c);
    }
  }

  // ---- No disconnect is forgotten ----

  /** The sessions a connection may still own in a meeting are yet to be removed: the disconnect event is still
      to be posted, waits in the meeting's line, or has been executed. */
  ghost predicate Seen(w: World, c: Conn, m: Meeting) {
    Ended(w, c) && Knows(w, c, m) ==>
      m in w.links[c].phase.todo || Disconnected(c) in Line(w, m) || (c, m) in w.cleaned
  }

  lemma StepKeepsSeen(w: World, step: Step, c: Conn, m: Meeting)
    requires LinksSane(w) && Enabled(w, step) && Seen(w, c, m)
    ensures Seen(Next(w, step), c, m)
  {
    LineEffect(w, step, m);
    if Disconnected(c) in Line(w, m) {
      FrontOrLater(Line(w, m), Disconnected(c));
    }
  }

  lemma FrontOrLater<T>(line: seq<T>, x: T)
    requires x in line
    ensures x == line[0] || x in line[1..]
  {
  }

  lemma {:induction false} RunKeepsSeen(w: World, steps: seq<Step>, c: Conn, m: Meeting)
    requires LinksSane(w) && Feasible(w, steps) && Seen(w, c, m)
    ensures Seen(Run(w, steps), c, m)
    decreases |steps|
  {
    if steps != [] {
      StepKeepsLinks(w, steps[0]);
      StepKeepsSeen(w, steps[0], c, m);
      RunKeepsSeen(Next(w, steps[0]), steps[1..], c, m);
    }
  }

  /** Whatever happens, once a connection has posted its disconnect events and the lines of its meetings have
      been worked off, all of these events have been executed and no room holds a session of it. */
  lemma NoDisconnectForgotten(steps: seq<Step>, c: Conn)
    requires Feasible(Start(), steps)
    requires var w := Run(Start(), steps);
      Ended(w, c) && w.links[c].phase.todo == {} && forall m :: Knows(w, c, m) ==> Line(w, m) == []
    ensures var w := Run(Start(), steps);
      OwnsNothing(w, c) && forall m :: Knows(w, c, m) ==> (c, m) in w.cleaned
  {
    var w := Run(Start(), steps);
    forall m | Knows(w, c, m)
      ensures (c, m) in w.cleaned
    {
      RunKeepsSeen(Start(), steps, c, m);
    }
    GoneConnectionsOwnNothing(steps, c);
  }

  predicate Present(w: World, i: Instance) {
    exists m, u :: m in w.rooms && u in w.rooms[m] && w.rooms[m][u].instance == i
  }

  /** An instance that has left never comes back, so no event that names it has any effect again. */
  lemma {:induction false} DepartedStaysOut(w: World, steps: seq<Step>, i: Instance)
    requires Inv(w) && Feasible(w, steps) && i < w.nextInstance && !Present(w, i)
    ensures !Present(Run(w, steps), i)
    decreases |steps|
  {
    if steps != [] {
      StepKeepsInv(w, steps[0]);
      DepartedStaysOut(Next(w, steps[0]), steps[1..], i);
    }
  }
}
