/** Runs of one serial command queue: submitting threads, the strand, slow threads that complete steps
    late, twice or out of turn, and capacity timers. */
module QueueRuns {
  import opened Histories
  import opened Scheduler

  /** One wait of one operation. */
  datatype Ticket = Ticket(op: nat, phase: nat)

  datatype World = World(
    q: Queue,
    accepted: seq<Entry>,
    started: seq<Entry>,
    finished: seq<Entry>,
    issued: set<Ticket>,          // waits begun
    delivered: set<Ticket>,       // waits whose completion has been posted
    consumed: set<Ticket>,        // waits whose completion has resumed the operation
    corrupted: bool)               // a completion resumed an operation that was not awaiting it

  datatype Step =
    | Submit(e: Entry)
    | RunJob
    | StartOp
    | WaitOp
    | TimerOp
    | TimerFires
    | EndOp
    | Deliver(ticket: Ticket)

  function Start(capacity: nat): World {
    World(EmptyQueue(capacity), [], [], [], {}, {}, {}, false)
  }

  /** The strand executes one handler at a time; a coroutine occupies it until it is suspended. */
  predicate Enabled(w: World, step: Step) {
    match step
    case Submit(e) => Admits(e.terminal, e.bytes, w.q.count, w.q.capacity, QUEUE_BYTES)
    case RunJob => w.q.strand != [] && !w.q.activity.Running?
    case StartOp => w.q.activity.Starting?
    case WaitOp => w.q.activity.Running?
    case TimerOp => w.q.activity.Running?
    case TimerFires => w.q.activity.OnTimer?
    case EndOp => w.q.activity.Running?
    case Deliver(ticket) => ticket in w.issued
  }

  /** The counters cover the operation that runs, so giving its share back does not wrap them. */
  predicate CanEnd(w: World) {
    w.q.activity.Running? ==> w.q.count.pending > 0 && w.q.count.bytes >= w.q.activity.entry.bytes
  }

  function Next(w: World, step: Step): World
    requires Enabled(w, step)
  {
    match step
    case Submit(e) => w.(q := Submitted(w.q, e), accepted := w.accepted + [e])
    case RunJob =>
      if !SafeToRun(w.q) then w.(q := w.q.(strand := w.q.strand[1..]), corrupted := true)
      else
        var job := w.q.strand[0];
        w.(q := JobRun(w.q),
           consumed := if job.Resume? && Wakes(w.q, job.op, job.phase)
             then w.consumed + {Ticket(job.op, job.phase)} else w.consumed)
    case StartOp =>
      w.(q := w.q.(activity := Running(w.q.activity.entry)), started := w.started + [w.q.activity.entry])
    case WaitOp => w.(q := Waited(w.q), issued := w.issued + {Ticket(w.q.activeOp, w.q.phase + 1)})
    case TimerOp => w.(q := w.q.(activity := OnTimer(w.q.activity.entry)))
    case TimerFires => w.(q := w.q.(activity := Running(w.q.activity.entry)))
    case EndOp => w.(q := Ended(w.q), finished := w.finished + [w.q.activity.entry])
    case Deliver(ticket) =>
      if ticket in w.delivered then w
      else w.(delivered := w.delivered + {ticket},
              q := w.q.(strand := w.q.strand + [Resume(ticket.op, ticket.phase)]))
  }

  // ---- What is still to be started ----

  function Pushes(strand: seq<Job>): seq<Entry> {
    if strand == [] then []
    else (if strand[0].Push? then [strand[0].entry] else []) + Pushes(strand[1..])
  }

  lemma {:induction false} PushesAppend(strand: seq<Job>, job: Job)
    ensures Pushes(strand + [job]) == Pushes(strand) + (if job.Push? then [job.entry] else [])
  {
    if strand != [] {
      assert (strand + [job])[1..] == strand[1..] + [job];
      PushesAppend(strand[1..], job);
    }
  }

  function ToStart(q: Queue): seq<Entry> {
    (if q.activity.Starting? then [q.activity.entry] else []) + q.commands + Pushes(q.strand)
  }

  function Bytes(entries: seq<Entry>): nat {
    if entries == [] then 0 else Bytes(entries[..|entries| - 1]) + entries[|entries| - 1].bytes
  }

  lemma BytesAppend(entries: seq<Entry>, e: Entry)
    ensures Bytes(entries + [e]) == Bytes(entries) + e.bytes
  {
    assert (entries + [e])[..|entries|] == entries;
  }

  lemma {:induction false} BytesGrow(entries: seq<Entry>, more: seq<Entry>)
    ensures Bytes(entries + more) >= Bytes(entries)
  {
    if more == [] {
      assert entries + more == entries;
    } else {
      BytesGrow(entries, more[..|more| - 1]);
      assert entries + more == (entries + more[..|more| - 1]) + [more[|more| - 1]];
      BytesAppend(entries + more[..|more| - 1], more[|more| - 1]);
    }
  }

  // ---- The invariant ----

  predicate Begun(activity: Activity) {
    !activity.Idle? && !activity.Starting?
  }

  predicate SettlePending(strand: seq<Job>) {
    exists i :: 0 <= i < |strand| && strand[i].Settle?
  }

  /** Everything accepted has been started or will be, in this order, and the operation in progress,
      if any, is the only one that has been started and not finished. */
  ghost predicate Lined(q: Queue, accepted: seq<Entry>, started: seq<Entry>, finished: seq<Entry>) {
    && accepted == started + ToStart(q)
    && started == finished + (if Begun(q.activity) then [q.activity.entry] else [])
    && (q.activeOp == 0 <==> q.activity.Idle?) && (q.activeOp != 0 ==> q.activeOp == q.nextOp)
  }

  ghost predicate LinedAs(w: World, q: Queue) {
    Lined(q, w.accepted, w.started, w.finished)
  }

  /** And while no operation is in progress, a job that will pump the waiting commands is posted. */
  ghost predicate InOrder(w: World) {
    && LinedAs(w, w.q)
    && (w.q.activity.Idle? && w.q.commands != [] ==> SettlePending(w.q.strand))
  }

  /** The counters are exactly the accepted commands that have not ended. */
  ghost predicate Counted(w: World) {
    && w.q.count.pending == |w.accepted| - |w.finished|
    && w.q.count.bytes == Bytes(w.accepted) - Bytes(w.finished)
    && w.q.count.bytes <= QUEUE_BYTES
  }

  ghost predicate TicketsSane(w: World) {
    && (forall t :: t in w.issued ==> 1 <= t.op <= w.q.nextOp && 1 <= t.phase)
    && (forall t :: t in w.issued && t.op == w.q.activeOp ==> t.phase <= w.q.phase)
    && w.consumed <= w.delivered <= w.issued
    && (Ticket(w.q.activeOp, w.q.phase) in w.issued - w.consumed ==> w.q.activity.Awaiting?)
    && !w.corrupted
  }

  ghost predicate Unused(w: World, job: Job) {
    job.Resume? ==> Ticket(job.op, job.phase) in w.delivered - w.consumed
  }

  ghost predicate ResumesSane(w: World) {
    && (forall i :: 0 <= i < |w.q.strand| ==> Unused(w, w.q.strand[i]))
    && (forall i, j :: 0 <= i < j < |w.q.strand| && w.q.strand[i].Resume? ==> w.q.strand[i] != w.q.strand[j])
  }

  ghost predicate Inv(w: World) {
    InOrder(w) && Counted(w) && TicketsSane(w) && ResumesSane(w)
  }

  // ---- Every step keeps it ----

  lemma PumpedKeepsOrder(w: World, q: Queue)
    requires LinedAs(w, q)
    ensures InOrder(w.(q := Pumped(q)))
  {
    if q.activeOp == 0 && q.commands != [] {
      assert q.commands == [q.commands[0]] + q.commands[1..];
      assert ToStart(Pumped(q)) == ToStart(q);
    }
  }

  lemma SettleSurvives(w: World)
    requires TicketsSane(w) && ResumesSane(w) && w.q.strand != [] && w.q.strand[0].Resume?
    ensures SettlePending(w.q.strand) ==> SettlePending(w.q.strand[1..])
    ensures w.q.strand[0].op != 0
  {
    assert Unused(w, w.q.strand[0]);
    if SettlePending(w.q.strand) {
      var i :| 0 <= i < |w.q.strand| && w.q.strand[i].Settle?;
      assert w.q.strand[1..][i - 1].Settle?;
    }
  }

  lemma PushKeepsLined(w: World, rest: seq<Job>, e: Entry)
    requires LinedAs(w, w.q) && w.q.strand == [Push(e)] + rest
    ensures LinedAs(w, w.q.(strand := rest, commands := w.q.commands + [e]))
  {
    assert w.q.strand[1..] == rest;
    assert w.q.commands + [e] + Pushes(rest) == w.q.commands + Pushes(w.q.strand);
  }

  lemma PopKeepsLined(w: World, job: Job, rest: seq<Job>, activity: Activity)
    requires LinedAs(w, w.q) && w.q.strand == [job] + rest && !job.Push?
    requires activity == w.q.activity || (w.q.activity.Awaiting? && activity == Running(w.q.activity.entry))
    ensures LinedAs(w, w.q.(strand := rest, activity := activity))
  {
    assert w.q.strand[1..] == rest;
  }

  lemma RunJobKeepsOrder(w: World)
    requires InOrder(w) && TicketsSane(w) && ResumesSane(w) && Enabled(w, RunJob)
    ensures InOrder(Next(w, RunJob))
  {
    hide SettlePending, TicketsSane, ResumesSane, Pumped, Lined;
    var job, rest := w.q.strand[0], w.q.strand[1..];
    assert w.q.strand == [job] + rest;
    match job {
      case Push(e) =>
        PushKeepsLined(w, rest, e);
        PumpedKeepsOrder(w, w.q.(strand := rest, commands := w.q.commands + [e]));
      case Settle(_) =>
        PopKeepsLined(w, job, rest, w.q.activity);
        PumpedKeepsOrder(w, w.q.(strand := rest));
      case Resume(op, phase) =>
        SettleSurvives(w);
        PopKeepsLined(w, job, rest, w.q.activity);
        if w.q.activity.Awaiting? { PopKeepsLined(w, job, rest, Running(w.q.activity.entry)); }
    }
  }

  lemma PostKeepsOrder(w: World, job: Job)
    requires InOrder(w) && !job.Settle?
    ensures var q := w.q.(strand := w.q.strand + [job]);
      InOrder(w.(q := q, accepted := w.accepted + (if job.Push? then [job.entry] else [])))
  {
    PushesAppend(w.q.strand, job);
    StillPending(w.q.strand, job);
  }

  lemma EndKeepsOrder(w: World)
    requires InOrder(w) && Enabled(w, EndOp)
    ensures InOrder(Next(w, EndOp))
  {
    var job := Settle(w.q.activity.entry.bytes);
    PushesAppend(w.q.strand, job);
    assert (w.q.strand + [job])[|w.q.strand|] == job;
    assert SettlePending(w.q.strand + [job]);
  }

  lemma StepKeepsOrder(w: World, step: Step)
    requires Inv(w) && Enabled(w, step)
    ensures InOrder(Next(w, step))
  {
    hide Counted, TicketsSane, ResumesSane, SettlePending, Pushes;
    match step
    case Submit(e) =>
      PostKeepsOrder(w, Push(e));
      InOrderIgnores(w.(q := w.q.(strand := w.q.strand + [Push(e)]), accepted := w.accepted + [e]), Next(w, step));
    case EndOp => EndKeepsOrder(w);
    case Deliver(t) =>
      PostKeepsOrder(w, Resume(t.op, t.phase));
      assert w.accepted + [] == w.accepted;
    case RunJob => RunJobKeepsOrder(w);
    case _ =>
  }

  lemma InOrderIgnores(w: World, v: World)
    requires InOrder(w) && v.accepted == w.accepted && v.started == w.started && v.finished == w.finished
    requires v.q == w.q.(count := v.q.count)
    ensures InOrder(v)
  {
  }

  lemma StillPending(strand: seq<Job>, job: Job)
    ensures SettlePending(strand) ==> SettlePending(strand + [job])
  {
    if SettlePending(strand) {
      var i :| 0 <= i < |strand| && strand[i].Settle?;
      assert (strand + [job])[i].Settle?;
    }
  }

  lemma StepKeepsCounted(w: World, step: Step)
    requires Inv(w) && Enabled(w, step)
    ensures Counted(Next(w, step))
  {
    hide InOrder, TicketsSane, ResumesSane, Bytes;
    match step
    case Submit(e) => BytesAppend(w.accepted, e);
    case EndOp => BytesAppend(w.finished, w.q.activity.entry);
    case _ =>
  }

  lemma StepKeepsTickets(w: World, step: Step)
    requires Inv(w) && Enabled(w, step)
    ensures TicketsSane(Next(w, step))
  {
    hide Counted, ToStart;
    if step.RunJob? { assert Unused(w, w.q.strand[0]); }
  }

  lemma StepKeepsResumes(w: World, step: Step)
    requires Inv(w) && Enabled(w, step)
    ensures ResumesSane(Next(w, step))
  {
    hide Counted, ToStart, InOrder;
    var next := Next(w, step);
    forall i | 0 <= i < |next.q.strand| ensures Unused(next, next.q.strand[i]) {
      if step.RunJob? { assert Unused(w, w.q.strand[i + 1]); }
      else if i < |w.q.strand| { assert Unused(w, w.q.strand[i]); }
    }
    forall i, j | 0 <= i < j < |next.q.strand| && next.q.strand[i].Resume?
      ensures next.q.strand[i] != next.q.strand[j]
    {
      if step.RunJob? { assert w.q.strand[i + 1] != w.q.strand[j + 1]; }
      else { assert Unused(w, w.q.strand[i]); }
    }
  }

  lemma CountersCover(w: World)
    requires InOrder(w) && Counted(w)
    ensures CanEnd(w)
  {
    if w.q.activity.Running? {
      BytesAppend(w.finished, w.q.activity.entry);
      BytesGrow(w.started, ToStart(w.q));
    }
  }

  lemma StepKeepsInv(w: World, step: Step)
    requires Inv(w) && Enabled(w, step)
    ensures Inv(Next(w, step))
  {
    hide InOrder, Counted, TicketsSane, ResumesSane, Next;
    StepKeepsOrder(w, step);
    StepKeepsCounted(w, step);
    StepKeepsTickets(w, step);
    StepKeepsResumes(w, step);
  }

  // ---- Runs ----

  ghost predicate Feasible(w: World, steps: seq<Step>)
    decreases |steps|
  {
    steps == [] || (Enabled(w, steps[0]) && Feasible(Next(w, steps[0]), steps[1..]))
  }

  ghost function Run(w: World, steps: seq<Step>): World
    requires Feasible(w, steps)
    decreases |steps|
  {
    if steps == [] then w else Run(Next(w, steps[0]), steps[1..])
  }

  lemma {:induction false} RunKeepsInv(w: World, steps: seq<Step>)
    requires Inv(w) && Feasible(w, steps)
    ensures Inv(Run(w, steps))
    decreases |steps|
  {
    hide Inv, Next;
    if steps != [] {
      StepKeepsInv(w, steps[0]);
      RunKeepsInv(Next(w, steps[0]), steps[1..]);
    }
  }

  lemma StartInv(capacity: nat)
    ensures Inv(Start(capacity))
  {
  }

  /** In every run the commands are started and finished in the order in which they were accepted, at
      most one of them is between its start and its end, and a new one starts only when all the
      earlier ones have finished. No completion resumes an operation that does not await it. When
      the strand has nothing left to do and no operation is in progress, every accepted command has
      been carried out, however completions and timers were spread. */
  lemma RunsInAcceptanceOrder(capacity: nat, steps: seq<Step>)
    requires Feasible(Start(capacity), steps)
    ensures var w := Run(Start(capacity), steps);
      && w.finished <= w.started <= w.accepted
      && |w.started| <= |w.finished| + 1
      && (Enabled(w, StartOp) ==> w.started == w.finished && w.started + [w.q.activity.entry] <= w.accepted)
      && !w.corrupted
      && (w.q.strand == [] && w.q.activity.Idle? ==> w.finished == w.accepted)
  {
    StartInv(capacity);
    RunKeepsInv(Start(capacity), steps);
    var w := Run(Start(capacity), steps);
    hide Run, Feasible, Inv, Counted, TicketsSane, ResumesSane, InOrder, Next;
    InvParts(w);
    NeverCorrupted(w);
    OrderAt(w);
  }

  lemma InvParts(w: World)
    requires Inv(w)
    ensures InOrder(w) && TicketsSane(w)
  {
  }

  lemma OrderAt(w: World)
    requires InOrder(w)
    ensures w.finished <= w.started <= w.accepted && |w.started| <= |w.finished| + 1
    ensures Enabled(w, StartOp) ==> w.started == w.finished && w.started + [w.q.activity.entry] <= w.accepted
    ensures w.q.strand == [] && w.q.activity.Idle? ==> w.finished == w.accepted
  {
    assert w.started == w.finished || w.started == w.finished + [w.q.activity.entry];
    assert w.accepted == w.started + ToStart(w.q);
  }

  lemma NeverCorrupted(w: World)
    requires TicketsSane(w)
    ensures !w.corrupted
  {
  }

  // ---- Admission ----

  /** How many of these are ordinary commands. */
  function Ordinary(entries: seq<Entry>): nat {
    if entries == [] then 0 else Ordinary(entries[..|entries| - 1]) + if entries[|entries| - 1].terminal then 0 else 1
  }

  lemma {:induction false} OrdinaryParts(a: seq<Entry>, b: seq<Entry>)
    ensures Ordinary(a + b) == Ordinary(a) + Ordinary(b) && Ordinary(b) <= |b|
  {
    if b == [] {
      assert a + b == a;
    } else {
      var init := b[..|b| - 1];
      assert (a + b)[..|a + b| - 1] == a + init;
      OrdinaryParts(a, init);
    }
  }

  function Unfinished(w: World): seq<Entry> {
    if |w.finished| <= |w.accepted| then w.accepted[|w.finished|..] else []
  }

  lemma UnfinishedAfter(w: World, step: Step)
    requires Enabled(w, step) && |w.finished| <= |w.accepted|
    requires step.EndOp? ==> |w.finished| < |w.accepted|
    ensures var next := Unfinished(Next(w, step));
      match step
      case Submit(e) => next == Unfinished(w) + [e]
      case EndOp => Unfinished(w) != [] && next == Unfinished(w)[1..]
      case _ => next == Unfinished(w)
    ensures Next(w, step).q.capacity == w.q.capacity
  {
    hide JobRun, Ended, Waited;
    if step.RunJob? { JobKeepsCapacity(w.q); }
    if step.EndOp? || step.WaitOp? { OpKeepsCapacity(w.q); }
  }

  lemma JobKeepsCapacity(q: Queue)
    requires q.strand != []
    ensures SafeToRun(q) ==> JobRun(q).capacity == q.capacity
  {
  }

  lemma OpKeepsCapacity(q: Queue)
    requires q.activity.Running?
    ensures Ended(q).capacity == q.capacity && Waited(q).capacity == q.capacity
  {
  }

  lemma RunningIsUnfinished(w: World)
    requires Inv(w)
    ensures |w.finished| <= |w.accepted| && (w.q.activity.Running? ==> |w.finished| < |w.accepted|)
  {
    InvParts(w);
    OrderAt(w);
    assert Counted(w);
    CountersCover(w);
    hide InOrder, TicketsSane, ResumesSane, Inv;
  }

  ghost predicate AdmissionKept(w: World, capacity: nat) {
    w.q.capacity == capacity && Ordinary(Unfinished(w)) <= capacity
  }

  lemma StepKeepsAdmission(w: World, step: Step, capacity: nat)
    requires Inv(w) && Enabled(w, step) && AdmissionKept(w, capacity)
    ensures AdmissionKept(Next(w, step), capacity)
  {
    hide Inv, Next, Unfinished;
    RunningIsUnfinished(w);
    PendingIsUnfinished(w);
    UnfinishedAfter(w, step);
    if step.Submit? {
      OneMoreOrdinary(Unfinished(w), step.e);
    } else if step.EndOp? {
      OneLessOrdinary(Unfinished(w));
    }
  }

  lemma OneMoreOrdinary(entries: seq<Entry>, e: Entry)
    ensures Ordinary(entries + [e]) == Ordinary(entries) + (if e.terminal then 0 else 1)
    ensures Ordinary(entries) <= |entries|
  {
    assert (entries + [e])[..|entries|] == entries;
    OrdinaryParts([], entries);
    assert [] + entries == entries;
  }

  lemma OneLessOrdinary(entries: seq<Entry>)
    requires entries != []
    ensures Ordinary(entries[1..]) <= Ordinary(entries)
  {
    assert entries == entries[..1] + entries[1..];
    OrdinaryParts(entries[..1], entries[1..]);
  }

  lemma PendingIsUnfinished(w: World)
    requires Inv(w)
    ensures w.q.count.pending == |Unfinished(w)|
  {
    InvParts(w);
    OrderAt(w);
    assert Counted(w);
    hide InOrder, TicketsSane, ResumesSane;
  }

  lemma {:induction false} RunKeepsAdmission(w: World, steps: seq<Step>, capacity: nat)
    requires Inv(w) && Feasible(w, steps) && AdmissionKept(w, capacity)
    ensures AdmissionKept(Run(w, steps), capacity) && Inv(Run(w, steps))
    decreases |steps|
  {
    hide Inv, Next, AdmissionKept;
    if steps != [] {
      StepKeepsInv(w, steps[0]);
      StepKeepsAdmission(w, steps[0], capacity);
      RunKeepsAdmission(Next(w, steps[0]), steps[1..], capacity);
    }
  }

  /** In every run there are never more unfinished ordinary commands than the queue holds; and whatever
      the number of commands, a terminal one is turned away only for want of bytes. */
  lemma CapacityIsForOrdinary(capacity: nat, steps: seq<Step>, e: Entry)
    requires Feasible(Start(capacity), steps)
    ensures var w := Run(Start(capacity), steps);
      && Ordinary(Unfinished(w)) <= capacity
      && (e.terminal ==> (Enabled(w, Submit(e)) <==> w.q.count.bytes + e.bytes <= QUEUE_BYTES))
      && (!e.terminal ==> (Enabled(w, Submit(e)) <==>
            w.q.count.bytes + e.bytes <= QUEUE_BYTES && |w.accepted| - |w.finished| < capacity))
  {
    StartInv(capacity);
    RunKeepsAdmission(Start(capacity), steps, capacity);
    PendingIsUnfinished(Run(Start(capacity), steps));
    InvParts(Run(Start(capacity), steps));
    OrderAt(Run(Start(capacity), steps));
    hide Run, Feasible, Inv, InOrder;
  }

  /** The counters are the commands accepted and not yet finished, and their bytes: they are zero when
      everything has finished, stay within the limit and never wrap. */
  lemma CountersExact(capacity: nat, steps: seq<Step>)
    requires Feasible(Start(capacity), steps)
    ensures var w := Run(Start(capacity), steps);
      && w.q.count.pending == |w.accepted| - |w.finished|
      && w.q.count.bytes == Bytes(w.accepted) - Bytes(w.finished) <= QUEUE_BYTES
      && CanEnd(w)
  {
    StartInv(capacity);
    RunKeepsInv(Start(capacity), steps);
    CountersCover(Run(Start(capacity), steps));
  }

  /** A completion at the front of the strand continues the operation exactly when it belongs to the
      wait the operation is in; it never matches again, and any other completion changes nothing but
      the strand. */
  lemma OnlyTheAwaitedResumes(w: World)
    requires Inv(w) && Enabled(w, RunJob) && w.q.strand[0].Resume?
    ensures var t := Ticket(w.q.strand[0].op, w.q.strand[0].phase);
      var next := Next(w, RunJob);
      if t == Ticket(w.q.activeOp, w.q.phase) then
        && w.q.activity.Awaiting? && next.q.activity == Running(w.q.activity.entry)
        && (forall i :: 0 <= i < |next.q.strand| ==> next.q.strand[i] != Resume(t.op, t.phase))
        && t in next.delivered
      else next == w.(q := w.q.(strand := w.q.strand[1..]))
  {
    assert Unused(w, w.q.strand[0]);
  }
}
