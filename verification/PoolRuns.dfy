/** Reservations of a slow pool: operations that reserve, submit, wait for each other and end, against
    the pool's workers, in any interleaving. */
module PoolRuns {
  import opened Histories
  import opened Scheduler

  datatype Op = Op(id: nat)

  datatype World = World(
    p: Pool<Op>,            // a task is the operation that submitted it
    ops: set<Op>,
    holders: set<Op>,       // operations that hold a reservation
    executing: set<Op>,     // operations whose task a worker has taken
    elsewhere: set<Op>,     // connection operations waiting for the operation of a meeting
    refusedInVain: bool)    // a holder was refused although the pool was not stopping

  datatype Step =
    | Open(op: Op)
    | Reserve(op: Op)
    | Release(op: Op)
    | Submit(op: Op)
    | Take
    | Complete(op: Op)
    | WaitForOther(op: Op)
    | OtherDone(op: Op)
    | Close(op: Op)
    | Stop

  function Start(capacity: nat): World {
    World(Pool(capacity, 0, 0, false, []), {}, {}, {}, {}, false)
  }

  /** The operation's coroutine runs; it is not suspended. */
  predicate Runs(w: World, op: Op) {
    op in w.ops && op !in w.p.tasks && op !in w.executing && op !in w.elsewhere
  }

  predicate Enabled(w: World, step: Step) {
    match step
    case Open(op) => op !in w.ops
    case Reserve(op) => Runs(w, op) && op !in w.holders
    case Release(op) => Runs(w, op) && op in w.holders
    case Submit(op) => Runs(w, op) && op in w.holders
    case Take => w.p.tasks != []
    case Complete(op) => op in w.executing
    case WaitForOther(op) => Runs(w, op)
    case OtherDone(op) => op in w.elsewhere
    case Close(op) => Runs(w, op)
    case Stop => true
  }

  /** Giving the reservation back, if there is one, as the operation does before it waits for another
      operation and when it ends. */
  function Freed(w: World, op: Op): World
    requires op in w.holders ==> w.p.reserved > 0
  {
    if op in w.holders then w.(p := w.p.(reserved := w.p.reserved - 1), holders := w.holders - {op}) else w
  }

  function Next(w: World, step: Step): World
    requires Inv(w) && Enabled(w, step)
  {
    match step
    case Open(op) => w.(ops := w.ops + {op})
    case Reserve(op) =>
      if MayReserve(w.p) then w.(p := w.p.(reserved := w.p.reserved + 1), holders := w.holders + {op}) else w
    case Release(op) => Freed(w, op)
    case Submit(op) =>
      if MaySubmit(w.p) then w.(p := w.p.(tasks := w.p.tasks + [op], pending := w.p.pending + 1))
      else w.(refusedInVain := w.refusedInVain || !w.p.stopping)
    case Take => w.(p := w.p.(tasks := w.p.tasks[1..]), executing := w.executing + {w.p.tasks[0]})
    case Complete(op) => w.(p := w.p.(pending := w.p.pending - 1), executing := w.executing - {op})
    case WaitForOther(op) => Freed(w, op).(elsewhere := w.elsewhere + {op})
    case OtherDone(op) => w.(elsewhere := w.elsewhere - {op})
    case Close(op) => Freed(w, op).(ops := w.ops - {op})
    case Stop => w.(p := w.p.(stopping := true))
  }

  // ---- The invariant ----

  /** A task is waiting or executing only for an operation that holds a reservation, and once. */
  ghost predicate Placed(w: World) {
    && NoDuplicates(w.p.tasks)
    && (forall op :: op in w.p.tasks ==> op in w.holders && op !in w.executing)
    && w.executing <= w.holders <= w.ops && w.holders !! w.elsewhere
  }

  ghost predicate Counted(w: World) {
    && w.p.pending == |w.p.tasks| + |w.executing|
    && w.p.reserved == |w.holders| <= w.p.capacity
    && (w.executing != {} ==> w.p.pending > 0) && (w.holders != {} ==> w.p.reserved > 0)
    && !w.refusedInVain
  }

  ghost predicate Inv(w: World) {
    Placed(w) && Counted(w)
  }

  /** Tasks, waiting or executing, never exceed the reservations of the other operations. */
  lemma TasksFit(w: World, idle: set<Op>)
    requires Inv(w) && idle <= w.holders && forall op :: op in idle ==> op !in w.p.tasks && op !in w.executing
    ensures w.p.pending + |idle| <= w.p.reserved
  {
    var waiting := w.holders - w.executing - idle;
    DistinctFit(w.p.tasks, waiting);
    assert w.holders == waiting + (w.executing + idle);
  }

  lemma StepKeepsPlaced(w: World, step: Step)
    requires Inv(w) && Enabled(w, step)
    ensures Placed(Next(w, step))
  {
    hide Counted;
    match step
    case Take =>
      var first := w.p.tasks[0];
      assert first in w.p.tasks;
      forall op | op in w.p.tasks[1..] ensures op in w.p.tasks && op != first {
        var i :| 0 < i < |w.p.tasks| && w.p.tasks[i] == op;
      }
    case _ =>
  }

  lemma StepKeepsCounted(w: World, step: Step)
    requires Inv(w) && Enabled(w, step)
    ensures Counted(Next(w, step))
  {
    match step
    case Submit(op) => TasksFit(w, {op});
    case Take => assert w.p.tasks[0] in w.p.tasks;
    case _ =>
  }

  lemma StepKeepsInv(w: World, step: Step)
    requires Inv(w) && Enabled(w, step)
    ensures Inv(Next(w, step))
  {
    StepKeepsPlaced(w, step);
    StepKeepsCounted(w, step);
  }

  // ---- Runs ----

  ghost predicate Feasible(w: World, steps: seq<Step>)
    requires Inv(w)
    decreases |steps|
  {
    steps == [] ||
      (Enabled(w, steps[0]) && (StepKeepsInv(w, steps[0]); Feasible(Next(w, steps[0]), steps[1..])))
  }

  ghost function Run(w: World, steps: seq<Step>): (end: World)
    requires Inv(w) && Feasible(w, steps)
    ensures Inv(end) && end.p.capacity == w.p.capacity
    decreases |steps|
  {
    if steps == [] then w
    else
      StepKeepsInv(w, steps[0]);
      Run(Next(w, steps[0]), steps[1..])
  }

  /** In every run: tasks never outnumber reservations, nor these the capacity; while the pool is not
      stopping, an operation that runs and holds a reservation would be accepted, and none has ever
      been refused; and whoever waits for another operation holds no reservation. */
  lemma ReservationSuffices(capacity: nat, steps: seq<Step>, op: Op)
    requires Feasible(Start(capacity), steps)
    ensures var w := Run(Start(capacity), steps);
      && w.p.pending <= w.p.reserved <= capacity
      && !w.refusedInVain
      && (Runs(w, op) && op in w.holders && !w.p.stopping ==>
            MaySubmit(w.p) && w.p.pending < capacity)
      && (op in w.elsewhere ==> op !in w.holders)
  {
    var w := Run(Start(capacity), steps);
    TasksFit(w, {});
    if Runs(w, op) && op in w.holders {
      TasksFit(w, {op});
    }
  }
}
