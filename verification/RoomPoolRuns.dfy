/** Runs of the task pool: every interleaving of posting threads, worker threads and the destructor. */
module RoomPoolRuns {
  import opened Histories
  import opened RoomPool

  /** A worker with the tasks it accepted and the tasks it handed to the handler, oldest first. */
  datatype Traced<T> = Traced(w: WorkerState<T>, accepted: seq<(Meeting, T)>, started: seq<(Meeting, T)>)

  datatype Step<T> = Post(m: Meeting, task: T) | Stop | Begin | Finish | Exit

  ghost predicate Good<T(!new)>(s: Traced<T>) {
    && Consistent(s.w)
    && forall m :: Of(s.accepted, m) == Of(s.started, m) + Pending(s.w, m)
  }

  predicate Enabled<T>(s: Traced<T>, step: Step<T>) {
    match step
    case Post(_, _) => true
    case Stop => true
    case Begin => CanBegin(s.w)
    case Finish => s.w.running.Some?
    case Exit => CanExit(s.w)
  }

  /** One locked section. That the result is good again is the invariant of the pool. */
  ghost function Next<T(!new)>(s: Traced<T>, step: Step<T>): (next: Traced<T>)
    requires Good(s) && Enabled(s, step)
    ensures Good(next)
  {
    match step
    case Post(m, task) =>
      PostKeepsGood(s, m, task);
      Traced(Posted(s.w, m, task), if s.w.stopping then s.accepted else s.accepted + [(m, task)], s.started)
    case Stop => s.(w := s.w.(stopping := true))
    case Begin =>
      BeginKeepsGood(s);
      var m := s.w.readyRooms[0];
      s.(w := Begun(s.w), started := s.started + [(m, Pending(s.w, m)[0])])
    case Finish =>
      FinishKeepsGood(s);
      s.(w := Finished(s.w))
    case Exit => s.(w := s.w.(exited := true))
  }

  lemma PostKeepsGood<T(!new)>(s: Traced<T>, m: Meeting, task: T)
    requires Good(s)
    ensures Good(Traced(Posted(s.w, m, task),
                        if s.w.stopping then s.accepted else s.accepted + [(m, task)], s.started))
  {
    PostedKeepsConsistent(s.w, m, task);
    var after := Posted(s.w, m, task);
    forall k | !s.w.stopping
      ensures Of(s.accepted + [(m, task)], k) == Of(s.started, k) + Pending(after, k)
    {
      OfAppend(s.accepted, (m, task), k);
    }
  }

  lemma BeginTakesFront<T(!new)>(w: WorkerState<T>, m: Meeting)
    requires Consistent(w) && CanBegin(w)
    ensures Consistent(Begun(w))
    ensures Pending(w, m) == (if m == w.readyRooms[0] then [Pending(w, m)[0]] else []) + Pending(Begun(w), m)
  {
    BegunKeepsConsistent(w);
  }

  lemma BeginKeepsGood<T(!new)>(s: Traced<T>)
    requires Good(s) && CanBegin(s.w)
    ensures var m := s.w.readyRooms[0];
      Good(s.(w := Begun(s.w), started := s.started + [(m, Pending(s.w, m)[0])]))
  {
    BegunKeepsConsistent(s.w);
    var m := s.w.readyRooms[0];
    var entry := (m, Pending(s.w, m)[0]);
    forall k
      ensures Of(s.accepted, k) == Of(s.started + [entry], k) + Pending(Begun(s.w), k)
    {
      BeginTakesFront(s.w, k);
      Regroup(s.started, entry, k, Pending(Begun(s.w), k));
    }
  }

  lemma FinishKeepsGood<T(!new)>(s: Traced<T>)
    requires Good(s) && s.w.running.Some?
    ensures Good(s.(w := Finished(s.w)))
  {
    FinishedKeepsConsistent(s.w);
    forall k
      ensures Pending(Finished(s.w), k) == Pending(s.w, k)
    {
    }
  }

  // ---- Runs ----

  ghost predicate Feasible<T(!new)>(s: Traced<T>, steps: seq<Step<T>>)
    requires Good(s)
    decreases |steps|
  {
    steps == [] || (Enabled(s, steps[0]) && Feasible(Next(s, steps[0]), steps[1..]))
  }

  ghost function Run<T(!new)>(s: Traced<T>, steps: seq<Step<T>>): (end: Traced<T>)
    requires Good(s) && Feasible(s, steps)
    ensures Good(end)
    decreases |steps|
  {
    if steps == [] then s else Run(Next(s, steps[0]), steps[1..])
  }

  function Fresh<T>(): Traced<T> {
    Traced(EmptyWorker(), [], [])
  }

  lemma FreshIsGood<T(!new)>()
    ensures Good(Fresh<T>())
  {
  }

  /** In every run the tasks handled for a meeting are a prefix of those accepted for it, and once
      the worker has left its loop they are all of them: stopping loses no accepted task. */
  lemma HandledInAcceptanceOrder<T(!new)>(steps: seq<Step<T>>, m: Meeting)
    requires Feasible(Fresh<T>(), steps)
    ensures var s := Run(Fresh<T>(), steps);
      && Of(s.started, m) <= Of(s.accepted, m)
      && (s.w.exited ==> Of(s.started, m) == Of(s.accepted, m))
  {
    var s := Run(Fresh<T>(), steps);
    assert Of(s.accepted, m) == Of(s.started, m) + Pending(s.w, m);
  }

  // ---- Fairness ----

  function Begins<T>(steps: seq<Step<T>>): nat {
    if steps == [] then 0 else (if steps[0].Begin? then 1 else 0) + Begins(steps[1..])
  }

  lemma BeginEffect<T(!new)>(s: Traced<T>, m: Meeting)
    requires Good(s) && Enabled(s, Step<T>.Begin)
    ensures var next := Next(s, Step<T>.Begin);
      && next.w.readyRooms == s.w.readyRooms[1..] && next.w.running == Some(s.w.readyRooms[0])
      && next.accepted == s.accepted
      && Of(next.started, m) == Of(s.started, m) + (if m == s.w.readyRooms[0] then [Pending(s.w, m)[0]] else [])
      && Pending(next.w, m) == if m == s.w.readyRooms[0] then Pending(s.w, m)[1..] else Pending(s.w, m)
  {
    OfAppend(s.started, (s.w.readyRooms[0], Pending(s.w, s.w.readyRooms[0])[0]), m);
  }

  lemma OtherEffect<T(!new)>(s: Traced<T>, step: Step<T>, m: Meeting)
    requires Good(s) && Enabled(s, step) && !step.Begin?
    ensures var next := Next(s, step);
      && s.w.readyRooms <= next.w.readyRooms && next.started == s.started
      && Of(s.accepted, m) <= Of(next.accepted, m)
      && Pending(s.w, m) <= Pending(next.w, m)
      && (s.w.running == Some(m) && Pending(s.w, m) != [] && step.Finish? ==>
            next.w.readyRooms == s.w.readyRooms + [m])
      && next.w.running == if step.Finish? then None else s.w.running
  {
    if step.Post? {
      OfAppend(s.accepted, (step.m, step.task), m);
    }
  }

  lemma Unfold<T(!new)>(s: Traced<T>, steps: seq<Step<T>>)
    requires Good(s) && Feasible(s, steps)
    ensures steps == [] ==> Run(s, steps) == s
    ensures steps != [] ==> Enabled(s, steps[0]) && Feasible(Next(s, steps[0]), steps[1..])
    ensures steps != [] ==> Run(s, steps) == Run(Next(s, steps[0]), steps[1..])
  {
  }

  lemma PlaceIsUnique<T(!new)>(w: WorkerState<T>, k: nat)
    requires Consistent(w) && k < |w.readyRooms|
    ensures k != 0 ==> w.readyRooms[0] != w.readyRooms[k]
    ensures w.running != Some(w.readyRooms[k]) && Pending(w, w.readyRooms[k]) != []
  {
  }

  /** A ready meeting moves forward by one place at each dequeue and at nothing else. */
  lemma {:induction false} MovesForward<T(!new)>(s: Traced<T>, steps: seq<Step<T>>, k: nat, m: Meeting)
    requires Good(s) && Feasible(s, steps)
    requires k < |s.w.readyRooms| && m == s.w.readyRooms[k] && Begins(steps) <= k
    ensures var end := Run(s, steps);
      && k - Begins(steps) < |end.w.readyRooms| && end.w.readyRooms[k - Begins(steps)] == m
      && Of(end.started, m) == Of(s.started, m)
      && Pending(s.w, m) <= Pending(end.w, m)
    decreases |steps|
  {
    hide Consistent, Feasible, Run, Next, Pending, Of;
    if steps == [] {
      assert Run(s, steps) == s by { Unfold(s, steps); }
    } else {
      Unfold(s, steps);
      PlaceIsUnique(s.w, k);
      var step, next := steps[0], Next(s, steps[0]);
      if step.Begin? {
        BeginEffect(s, m);
        MovesForward(next, steps[1..], k - 1, m);
      } else {
        OtherEffect(s, step, m);
        MovesForward(next, steps[1..], k, m);
      }
    }
  }

  /** Whatever else is posted, the meeting at position k starts its next task at exactly the
      (k+1)-th following dequeue. */
  lemma TurnComesExactly<T(!new)>(s: Traced<T>, steps: seq<Step<T>>, k: nat)
    requires Good(s) && Feasible(s, steps) && k < |s.w.readyRooms| && Begins(steps) == k
    requires Enabled(Run(s, steps), Step<T>.Begin)
    ensures var m := s.w.readyRooms[k];
      var end := Next(Run(s, steps), Step<T>.Begin);
      && end.w.running == Some(m)
      && Of(end.started, m) == Of(s.started, m) + [Pending(s.w, m)[0]]
  {
    MovesForward(s, steps, k, s.w.readyRooms[k]);
    assert Pending(s.w, s.w.readyRooms[k]) != [];
    BeginEffect(Run(s, steps), s.w.readyRooms[k]);
  }

  ghost predicate AtMostRooms<T(!new)>(s: Traced<T>, steps: seq<Step<T>>, rooms: nat)
    requires Good(s) && Feasible(s, steps)
    decreases |steps|
  {
    |s.w.roomQueues| <= rooms && (steps != [] ==> AtMostRooms(Next(s, steps[0]), steps[1..], rooms))
  }

  lemma ReadyFits<T(!new)>(w: WorkerState<T>)
    requires Consistent(w)
    ensures |w.readyRooms| + (if w.running.Some? then 1 else 0) <= |w.roomQueues|
  {
    var line := w.readyRooms + (if w.running.Some? then [w.running.value] else []);
    DistinctFit(line, w.roomQueues.Keys);
  }

  lemma {:induction false} LogsGrow<T(!new)>(s: Traced<T>, steps: seq<Step<T>>, m: Meeting)
    requires Good(s) && Feasible(s, steps)
    ensures Of(s.started, m) <= Of(Run(s, steps).started, m)
    ensures Of(s.accepted, m) <= Of(Run(s, steps).accepted, m)
    decreases |steps|
  {
    if steps != [] {
      if steps[0].Begin? {
        BeginEffect(s, m);
      } else {
        OtherEffect(s, steps[0], m);
      }
      LogsGrow(Next(s, steps[0]), steps[1..], m);
    }
  }

  lemma UnfoldBounded<T(!new)>(s: Traced<T>, steps: seq<Step<T>>, rooms: nat)
    requires Good(s) && Feasible(s, steps) && steps != [] && AtMostRooms(s, steps, rooms)
    ensures Enabled(s, steps[0]) && Feasible(Next(s, steps[0]), steps[1..])
    ensures Run(s, steps) == Run(Next(s, steps[0]), steps[1..])
    ensures |s.w.roomQueues| <= rooms && AtMostRooms(Next(s, steps[0]), steps[1..], rooms)
  {
  }

  /** j full rounds over the given number of rooms. */
  function Rounds(j: nat, rooms: nat): (n: nat)
    ensures n == j * rooms
  {
    if j == 0 then 0 else rooms + Rounds(j - 1, rooms)
  }

  /** `k` is the place of m in the ready line, or the last possible place while a task of m runs. */
  lemma {:induction false} WaitRunsDown<T(!new)>(
    s: Traced<T>, steps: seq<Step<T>>, m: Meeting, k: nat, j: nat, rooms: nat)
    requires Good(s) && Feasible(s, steps) && AtMostRooms(s, steps, rooms)
    requires if s.w.running == Some(m) then k == rooms - 1 else k < |s.w.readyRooms| && s.w.readyRooms[k] == m
    requires j < |Pending(s.w, m)| && Begins(steps) >= k + 1 + Rounds(j, rooms)
    ensures |Of(Run(s, steps).started, m)| > |Of(s.started, m)| + j
    decreases |steps|
  {
    hide Consistent, Feasible, Run, Next, Pending, Of, AtMostRooms;
    UnfoldBounded(s, steps, rooms);
    var step, next := steps[0], Next(s, steps[0]);
    ReadyFits(s.w);
    if s.w.running != Some(m) {
      PlaceIsUnique(s.w, k);
    }
    if step.Begin? {
      BeginEffect(s, m);
      if s.w.readyRooms[0] != m {
        WaitRunsDown(next, steps[1..], m, k - 1, j, rooms);
      } else if j == 0 {
        LogsGrow(next, steps[1..], m);
      } else {
        WaitRunsDown(next, steps[1..], m, rooms - 1, j - 1, rooms);
      }
    } else {
      OtherEffect(s, step, m);
      var place := if step.Finish? && s.w.running == Some(m) then |s.w.readyRooms| else k;
      WaitRunsDown(next, steps[1..], m, place, j, rooms);
    }
  }

  lemma EnoughBegins<T(!new)>(s: Traced<T>, steps: seq<Step<T>>, m: Meeting, j: nat, rooms: nat)
    requires Good(s) && Feasible(s, steps) && AtMostRooms(s, steps, rooms)
    requires j < |Pending(s.w, m)| && Begins(steps) >= rooms + Rounds(j, rooms)
    ensures |Of(Run(s, steps).started, m)| > |Of(s.started, m)| + j
  {
    assert m in s.w.roomQueues;
    ReadyFits(s.w);
    if s.w.running == Some(m) {
      WaitRunsDown(s, steps, m, rooms - 1, j, rooms);
    } else {
      var k :| 0 <= k < |s.w.readyRooms| && s.w.readyRooms[k] == m;
      WaitRunsDown(s, steps, m, k, j, rooms);
    }
  }

  lemma SameTask<T>(accepted: seq<T>, accepted': seq<T>, started: seq<T>, started': seq<T>,
                    queued: seq<T>, queued': seq<T>, j: nat)
    requires accepted == started + queued && accepted' == started' + queued' && accepted <= accepted'
    requires j < |queued| && |started| + j < |started'|
    ensures started'[|started| + j] == queued[j]
  {
    assert accepted'[|started| + j] == accepted[|started| + j];
  }

  /** The queued task at depth j (from 0) has been started, and it is that very task, after at most
      (j + 1) * rooms dequeues, where rooms bounds the meetings that are active on the worker. */
  lemma WaitIsBounded<T(!new)>(s: Traced<T>, steps: seq<Step<T>>, m: Meeting, j: nat, rooms: nat)
    requires Good(s) && Feasible(s, steps) && AtMostRooms(s, steps, rooms)
    requires j < |Pending(s.w, m)| && Begins(steps) >= (j + 1) * rooms
    ensures |Of(s.started, m)| + j < |Of(Run(s, steps).started, m)|
    ensures Of(Run(s, steps).started, m)[|Of(s.started, m)| + j] == Pending(s.w, m)[j]
  {
    hide Consistent, Posted, Begun, Finished, Feasible, Run, Next, AtMostRooms;
    assert (j + 1) * rooms == rooms + Rounds(j, rooms);
    EnoughBegins(s, steps, m, j, rooms);
    LogsGrow(s, steps, m);
    var end := Run(s, steps);
    SameTask(Of(s.accepted, m), Of(end.accepted, m), Of(s.started, m), Of(end.started, m),
             Pending(s.w, m), Pending(end.w, m), j);
  }

  // ---- The pool: a fixed worker for each meeting ----

  function WorkerIndex(hash: Meeting -> nat, m: Meeting, workers: nat): (i: nat)
    requires workers > 0
    ensures i < workers
  {
    hash(m) % workers
  }

  ghost predicate GoodPool<T(!new)>(hash: Meeting -> nat, pool: seq<Traced<T>>) {
    && |pool| > 0
    && (forall i :: 0 <= i < |pool| ==> Good(pool[i]))
    && (forall i, m :: 0 <= i < |pool| && i != WorkerIndex(hash, m, |pool|) ==> Of(pool[i].accepted, m) == [])
    && (forall i, m :: 0 <= i < |pool| && m in pool[i].w.roomQueues ==> i == WorkerIndex(hash, m, |pool|))
  }

  ghost predicate PoolEnabled<T(!new)>(hash: Meeting -> nat, pool: seq<Traced<T>>, i: nat, step: Step<T>) {
    i < |pool| && Enabled(pool[i], step) && (step.Post? ==> i == WorkerIndex(hash, step.m, |pool|))
  }

  lemma OnlyPostAdds<T(!new)>(s: Traced<T>, step: Step<T>, m: Meeting)
    requires Good(s) && Enabled(s, step)
    ensures m in Next(s, step).w.roomQueues ==> m in s.w.roomQueues || (step.Post? && step.m == m)
    ensures (step.Post? && step.m == m) || Of(Next(s, step).accepted, m) == Of(s.accepted, m)
  {
    if step.Post? {
      OfAppend(s.accepted, (step.m, step.task), m);
    }
  }

  lemma PoolStepKeepsGood<T(!new)>(hash: Meeting -> nat, pool: seq<Traced<T>>, i: nat, step: Step<T>)
    requires GoodPool(hash, pool) && PoolEnabled(hash, pool, i, step)
    ensures GoodPool(hash, pool[i := Next(pool[i], step)])
  {
    hide Next, Consistent, Of;
    forall m
      ensures m in Next(pool[i], step).w.roomQueues ==> m in pool[i].w.roomQueues || (step.Post? && step.m == m)
      ensures (step.Post? && step.m == m) || Of(Next(pool[i], step).accepted, m) == Of(pool[i].accepted, m)
    {
      OnlyPostAdds(pool[i], step, m);
    }
  }

  /** A step of the pool is a locked section of one of its workers. */
  datatype PoolStep<T> = PoolStep(worker: nat, step: Step<T>)

  function FreshPool<T>(workers: nat): (pool: seq<Traced<T>>)
    ensures |pool| == workers && forall i :: 0 <= i < workers ==> pool[i] == Fresh<T>()
  {
    seq(workers, _ => Fresh<T>())
  }

  lemma FreshPoolIsGood<T(!new)>(hash: Meeting -> nat, workers: nat)
    requires workers > 0
    ensures GoodPool(hash, FreshPool<T>(workers))
  {
    FreshIsGood<T>();
  }

  ghost predicate PoolFeasible<T(!new)>(hash: Meeting -> nat, pool: seq<Traced<T>>, steps: seq<PoolStep<T>>)
    requires GoodPool(hash, pool)
    decreases |steps|
  {
    steps == [] ||
      var s := steps[0];
      && PoolEnabled(hash, pool, s.worker, s.step)
      && (PoolStepKeepsGood(hash, pool, s.worker, s.step);
          PoolFeasible(hash, pool[s.worker := Next(pool[s.worker], s.step)], steps[1..]))
  }

  ghost function PoolRun<T(!new)>(hash: Meeting -> nat, pool: seq<Traced<T>>, steps: seq<PoolStep<T>>):
      (end: seq<Traced<T>>)
    requires GoodPool(hash, pool) && PoolFeasible(hash, pool, steps)
    ensures GoodPool(hash, end) && |end| == |pool|
    decreases |steps|
  {
    if steps == [] then pool
    else
      var s := steps[0];
      PoolStepKeepsGood(hash, pool, s.worker, s.step);
      PoolRun(hash, pool[s.worker := Next(pool[s.worker], s.step)], steps[1..])
  }

  ghost predicate PossibleRun<T(!new)>(hash: Meeting -> nat, workers: nat, steps: seq<PoolStep<T>>) {
    workers > 0 && (FreshPoolIsGood<T>(hash, workers); PoolFeasible(hash, FreshPool<T>(workers), steps))
  }

  /** Where a run of a new pool ends. */
  ghost function After<T(!new)>(hash: Meeting -> nat, workers: nat, steps: seq<PoolStep<T>>): (end: seq<Traced<T>>)
    requires PossibleRun(hash, workers, steps)
    ensures GoodPool(hash, end) && |end| == workers
  {
    FreshPoolIsGood<T>(hash, workers);
    PoolRun(hash, FreshPool<T>(workers), steps)
  }

  /** In every run of the pool, two tasks of one meeting never run at once, on the same worker or on two. */
  lemma MeetingRunsAlone<T(!new)>(hash: Meeting -> nat, workers: nat, steps: seq<PoolStep<T>>, i: nat, j: nat)
    requires PossibleRun(hash, workers, steps) && i < workers && j < workers
    requires var pool := After(hash, workers, steps);
      pool[i].w.running.Some? && pool[j].w.running == pool[i].w.running
    ensures i == j
  {
    var pool := After(hash, workers, steps);
    var m := pool[i].w.running.value;
    assert Good(pool[i]) && Good(pool[j]);
    assert m in pool[i].w.roomQueues && m in pool[j].w.roomQueues;
    assert i == WorkerIndex(hash, m, |pool|);
    assert j == WorkerIndex(hash, m, |pool|);
  }

  /** In every run of the pool: once every worker has been joined, every task the pool ever accepted for a
      meeting has been handled, in the order of acceptance, by the one worker of the meeting; before that,
      what has been handled is a prefix. */
  lemma DestructionDrains<T(!new)>(hash: Meeting -> nat, workers: nat, steps: seq<PoolStep<T>>, i: nat, m: Meeting)
    requires PossibleRun(hash, workers, steps) && i < workers
    ensures var pool := After(hash, workers, steps);
      && Of(pool[i].started, m) <= Of(pool[i].accepted, m)
      && (i != WorkerIndex(hash, m, workers) ==> Of(pool[i].accepted, m) == [])
      && ((forall k :: 0 <= k < workers ==> pool[k].w.exited) ==> Of(pool[i].started, m) == Of(pool[i].accepted, m))
  {
    var pool := After(hash, workers, steps);
    assert Good(pool[i]);
    assert Of(pool[i].accepted, m) == Of(pool[i].started, m) + Pending(pool[i].w, m);
  }
}
