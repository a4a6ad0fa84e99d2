/**
 The per-meeting task pool of the media server (RoomThreadPool.h). A meeting is served by one
 worker; a worker keeps one FIFO queue per meeting and rotates over the meetings that have work.
 */
module RoomPool {
  import opened Histories

  type Meeting = nat

  datatype RoomQueue<T> = RoomQueue(tasks: seq<T>, scheduled: bool)

  /** `running` is the meeting whose task the thread holds between its two locked sections. */
  datatype WorkerState<T> = WorkerState(
    roomQueues: map<Meeting, RoomQueue<T>>,
    readyRooms: seq<Meeting>,
    stopping: bool,
    running: Option<Meeting>,
    exited: bool)

  function EmptyWorker<T>(): WorkerState<T> {
    WorkerState(map[], [], false, None, false)
  }

  function Pending<T>(w: WorkerState<T>, m: Meeting): seq<T> {
    if m in w.roomQueues then w.roomQueues[m].tasks else []
  }

  // ---- The locked sections ----

  function Posted<T>(w: WorkerState<T>, m: Meeting, task: T): WorkerState<T> {
    if w.stopping then w
    else
      var queue := if m in w.roomQueues then w.roomQueues[m] else RoomQueue([], false);
      w.(roomQueues := w.roomQueues[m := RoomQueue(queue.tasks + [task], true)],
         readyRooms := if queue.scheduled then w.readyRooms else w.readyRooms + [m])
  }

  predicate CanBegin<T>(w: WorkerState<T>) {
    !w.exited && w.running.None? && w.readyRooms != []
  }

  function Begun<T>(w: WorkerState<T>): WorkerState<T>
    requires Consistent(w) && CanBegin(w)
  {
    var m := w.readyRooms[0];
    var queue := w.roomQueues[m];
    w.(readyRooms := w.readyRooms[1..],
       roomQueues := w.roomQueues[m := queue.(tasks := queue.tasks[1..])],
       running := Some(m))
  }

  function Finished<T>(w: WorkerState<T>): WorkerState<T>
    requires Consistent(w) && w.running.Some?
  {
    var m := w.running.value;
    if w.roomQueues[m].tasks != [] then w.(readyRooms := w.readyRooms + [m], running := None)
    else w.(roomQueues := w.roomQueues - {m}, running := None)
  }

  predicate CanExit<T>(w: WorkerState<T>) {
    !w.exited && w.running.None? && w.stopping && w.readyRooms == []
  }

  /** Why the queue accesses of the worker loop are always defined. */
  ghost predicate Consistent<T>(w: WorkerState<T>) {
    && NoDuplicates(w.readyRooms)
    && (forall m :: m in w.roomQueues <==> (m in w.readyRooms || w.running == Some(m)))
    && (forall m :: m in w.readyRooms ==> w.running != Some(m) && w.roomQueues[m].tasks != [])
    && (forall m :: m in w.roomQueues ==> w.roomQueues[m].scheduled)
    && (w.exited ==> w.stopping && w.readyRooms == [] && w.running.None?)
  }

  /** The worker as the server runs it: its state is changed only by these locked sections. */
  class Worker<T(!new)> {
    var roomQueues: map<Meeting, RoomQueue<T>>
    var readyRooms: seq<Meeting>
    var stopping: bool
    var exited: bool
    ghost var running: Option<Meeting>

    ghost function View(): WorkerState<T>
      reads this
    {
      WorkerState(roomQueues, readyRooms, stopping, running, exited)
    }

    constructor ()
      ensures View() == EmptyWorker() && Consistent(View())
    {
      roomQueues, readyRooms, stopping, exited := map[], [], false, false;
      running := None;
    }

    method Post(m: Meeting, task: T) returns (accepted: bool)
      requires Consistent(View())
      modifies this
      ensures accepted == !old(stopping)
      ensures View() == Posted(old(View()), m, task) && Consistent(View())
      ensures forall k :: Pending(View(), k) == Pending(old(View()), k) + if accepted && k == m then [task] else []
      ensures readyRooms == old(readyRooms) + if accepted && m !in old(roomQueues) then [m] else []
    {
      PostedKeepsConsistent(View(), m, task);
      if stopping {
        return false;
      }
      var queue := if m in roomQueues then roomQueues[m] else RoomQueue([], false);
      roomQueues := roomQueues[m := RoomQueue(queue.tasks + [task], true)];
      if !queue.scheduled {
        readyRooms := readyRooms + [m];
      }
      return true;
    }

    method RequestStop()
      requires Consistent(View())
      modifies this
      ensures View() == old(View()).(stopping := true) && Consistent(View())
    {
      stopping := true;
    }

    method BeginTask() returns (m: Meeting, task: T)
      requires Consistent(View()) && CanBegin(View())
      modifies this
      ensures m == old(readyRooms)[0] && task == Pending(old(View()), m)[0]
      ensures View() == Begun(old(View())) && Consistent(View())
      ensures forall k :: Pending(old(View()), k) == (if k == m then [task] else []) + Pending(View(), k)
      ensures running == Some(m) && old(readyRooms) == [m] + readyRooms
    {
      BegunKeepsConsistent(View());
      m := readyRooms[0];
      readyRooms := readyRooms[1..];
      var queue := roomQueues[m];
      task := queue.tasks[0];
      roomQueues := roomQueues[m := queue.(tasks := queue.tasks[1..])];
      running := Some(m);
    }

    method EndTask(m: Meeting)
      requires Consistent(View()) && running == Some(m)
      modifies this
      ensures View() == Finished(old(View())) && Consistent(View())
      ensures running.None? && forall k :: Pending(View(), k) == Pending(old(View()), k)
      ensures readyRooms == old(readyRooms) + if Pending(View(), m) != [] then [m] else []
      ensures roomQueues.Keys == old(roomQueues).Keys - if Pending(View(), m) == [] then {m} else {}
    {
      FinishedKeepsConsistent(View());
      if roomQueues[m].tasks != [] {
        readyRooms := readyRooms + [m];
      } else {
        roomQueues := roomQueues - {m};
      }
      running := None;
    }

    /** The worker loop once destruction has begun: nothing can be posted any more, and the loop
        hands every queued task to the handler, each meeting in queue order, before it returns. */
    method RunUntilExit() returns (handled: seq<(Meeting, T)>)
      requires Consistent(View()) && stopping && !exited && running.None?
      modifies this
      ensures exited && roomQueues == map[] && Consistent(View())
      ensures forall m :: Of(handled, m) == Pending(old(View()), m)
    {
      handled := [];
      while readyRooms != []
        invariant Consistent(View()) && stopping && !exited && running.None?
        invariant Accounted(old(View()), handled, View())
        decreases Backlog(View())
      {
        ghost var before := View();
        RoundKeepsAccount(old(View()), handled, before);
        RoundShrinksBacklog(before);
        var m, task := BeginTask();
        EndTask(m);
        handled := handled + [(m, task)];
      }
      assert roomQueues.Keys == {};
      exited := true;
    }
  }

  // ---- Consistency is kept ----

  lemma PostedKeepsConsistent<T(!new)>(w: WorkerState<T>, m: Meeting, task: T)
    requires Consistent(w)
    ensures Consistent(Posted(w, m, task))
  {
  }

  lemma BegunKeepsConsistent<T(!new)>(w: WorkerState<T>)
    requires Consistent(w) && CanBegin(w)
    ensures Consistent(Begun(w))
  {
    var next := Begun(w);
    assert w.readyRooms == [w.readyRooms[0]] + next.readyRooms;
  }

  lemma FinishedKeepsConsistent<T(!new)>(w: WorkerState<T>)
    requires Consistent(w) && w.running.Some?
    ensures Consistent(Finished(w))
  {
  }

  /** The queued tasks by meeting and depth: the measure of the draining loop. */
  ghost function Backlog<T>(w: WorkerState<T>): set<(Meeting, nat)> {
    set m, k: nat | m in w.roomQueues && k < |w.roomQueues[m].tasks| :: (m, k)
  }

  lemma RoundShrinksBacklog<T(!new)>(w: WorkerState<T>)
    requires Consistent(w) && CanBegin(w)
    ensures Consistent(Begun(w)) && Backlog(Finished(Begun(w))) < Backlog(w)
  {
    BegunKeepsConsistent(w);
    var m := w.readyRooms[0];
    var gone := (m, |w.roomQueues[m].tasks| - 1);
    assert gone in Backlog(w) && gone !in Backlog(Finished(Begun(w)));
  }

  /** Everything queued at the start has been handled or is queued still, in order. */
  ghost predicate Accounted<T(!new)>(start: WorkerState<T>, handled: seq<(Meeting, T)>, w: WorkerState<T>) {
    forall m :: Of(handled, m) + Pending(w, m) == Pending(start, m)
  }

  /** One round takes the first task of the front meeting and leaves every other queue alone. */
  lemma RoundTakesFront<T(!new)>(w: WorkerState<T>, m: Meeting)
    requires Consistent(w) && CanBegin(w)
    ensures Consistent(Begun(w))
    ensures Pending(w, m) ==
            (if m == w.readyRooms[0] then [Pending(w, m)[0]] else []) + Pending(Finished(Begun(w)), m)
  {
    BegunKeepsConsistent(w);
  }

  lemma RoundKeepsAccount<T(!new)>(start: WorkerState<T>, handled: seq<(Meeting, T)>, w: WorkerState<T>)
    requires Consistent(w) && CanBegin(w) && Accounted(start, handled, w)
    ensures Consistent(Begun(w))
    ensures Accounted(start, handled + [(w.readyRooms[0], Pending(w, w.readyRooms[0])[0])], Finished(Begun(w)))
  {
    BegunKeepsConsistent(w);
    var after := Finished(Begun(w));
    var entry := (w.readyRooms[0], Pending(w, w.readyRooms[0])[0]);
    forall k
      ensures Of(handled + [entry], k) + Pending(after, k) == Pending(start, k)
    {
      RoundTakesFront(w, k);
      Regroup(handled, entry, k, Pending(after, k));
    }
  }

  lemma Regroup<T>(log: seq<(Meeting, T)>, entry: (Meeting, T), k: Meeting, rest: seq<T>)
    ensures Of(log + [entry], k) + rest ==
            Of(log, k) + ((if k == entry.0 then [entry.1] else []) + rest)
  {
    OfAppend(log, entry, k);
  }
}
