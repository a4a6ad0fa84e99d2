/**
 The realtime server's scheduler (BusinessScheduler.h, BusinessScheduler.cpp): bounded pools for
 slow work, the process-wide admission counters, and the serial command queue of one meeting.
 */
module Scheduler {
  import opened Histories

  const QUEUE_BYTES: nat := 4 * 1024 * 1024
  const SCHEDULER_BYTES: nat := 64 * 1024 * 1024

  // ---- Slow pools ----

  datatype Pool<T> = Pool(capacity: nat, pending: nat, reserved: nat, stopping: bool, tasks: seq<T>)

  predicate MayReserve<T>(p: Pool<T>) {
    !p.stopping && p.reserved < p.capacity
  }

  predicate MaySubmit<T>(p: Pool<T>) {
    !p.stopping && p.pending < p.capacity
  }

  class SlowPool<T> {
    const capacity: nat
    var pending: nat
    var reserved: nat
    var stopping: bool
    var tasks: seq<T>

    ghost function View(): Pool<T>
      reads this
    {
      Pool(capacity, pending, reserved, stopping, tasks)
    }

    constructor (capacity: nat)
      requires capacity > 0
      ensures View() == Pool(capacity, 0, 0, false, [])
    {
      this.capacity := capacity;
      pending, reserved, stopping, tasks := 0, 0, false, [];
    }

    method Reserve() returns (granted: bool)
      modifies this`reserved
      ensures granted == MayReserve(old(View()))
      ensures granted <==> !stopping && old(reserved) < capacity
      ensures View() == if granted then old(View()).(reserved := old(reserved) + 1) else old(View())
    {
      if stopping || reserved >= capacity {
        return false;
      }
      reserved := reserved + 1;
      return true;
    }

    /** Called once for every granted reservation. */
    method Release()
      requires reserved > 0
      modifies this`reserved
      ensures View() == old(View()).(reserved := old(reserved) - 1)
    {
      reserved := reserved - 1;
    }

    method Submit(task: T) returns (accepted: bool)
      modifies this`tasks, this`pending
      ensures accepted == MaySubmit(old(View()))
      ensures accepted <==> !stopping && old(pending) < capacity
      ensures View() ==
        if accepted then old(View()).(tasks := old(tasks) + [task], pending := old(pending) + 1) else old(View())
    {
      if stopping || pending >= capacity {
        return false;
      }
      tasks := tasks + [task];
      pending := pending + 1;
      return true;
    }

    method Take() returns (task: T)
      requires tasks != []
      modifies this`tasks
      ensures task == old(tasks)[0] && View() == old(View()).(tasks := old(tasks)[1..])
    {
      task := tasks[0];
      tasks := tasks[1..];
    }

    /** A worker gives the place back before it lets the operation continue. */
    method Complete()
      requires pending > 0
      modifies this`pending
      ensures View() == old(View()).(pending := old(pending) - 1)
    {
      pending := pending - 1;
    }

    method RequestStop()
      modifies this`stopping
      ensures View() == old(View()).(stopping := true)
    {
      stopping := true;
    }
  }

  // ---- Serial command queues ----

  datatype Entry = Entry(id: nat, terminal: bool, bytes: nat)

  /** What can wait on a strand. */
  datatype Job =
    | Push(entry: Entry)
    | Resume(op: nat, phase: nat)
    | Settle(bytes: nat)

  /** The operation that owns the queue and where it is: about to start, running on the strand,
      awaiting a slow step, or waiting for pool capacity on a timer. */
  datatype Activity =
    | Idle
    | Starting(entry: Entry)
    | Running(entry: Entry)
    | Awaiting(entry: Entry)
    | OnTimer(entry: Entry)

  datatype Counters = Counters(pending: int, bytes: int)

  datatype Queue = Queue(
    capacity: nat,
    count: Counters,
    commands: seq<Entry>,
    strand: seq<Job>,
    nextOp: nat,
    activeOp: nat,
    phase: nat,
    activity: Activity)

  function EmptyQueue(capacity: nat): Queue {
    Queue(capacity, Counters(0, 0), [], [], 0, 0, 0, Idle)
  }

  predicate Admits(terminal: bool, bytes: nat, count: Counters, capacity: nat, limit: nat) {
    (terminal || count.pending < capacity) && bytes <= limit - count.bytes
  }

  function Submitted(q: Queue, e: Entry): Queue {
    q.(count := Counters(q.count.pending + 1, q.count.bytes + e.bytes), strand := q.strand + [Push(e)])
  }

  function Pumped(q: Queue): Queue {
    if q.activeOp != 0 || q.commands == [] then q
    else q.(nextOp := q.nextOp + 1, activeOp := q.nextOp + 1, phase := 0,
            commands := q.commands[1..], activity := Starting(q.commands[0]))
  }

  /** The operation has asked for a slow step: a new phase, and the coroutine is suspended. */
  function Waited(q: Queue): Queue
    requires q.activity.Running?
  {
    q.(phase := q.phase + 1, activity := Awaiting(q.activity.entry))
  }

  /** The body and the done callback have returned. */
  function Ended(q: Queue): Queue
    requires q.activity.Running?
  {
    var e := q.activity.entry;
    q.(activeOp := 0, activity := Idle, count := Counters(q.count.pending - 1, q.count.bytes - e.bytes),
       strand := q.strand + [Settle(e.bytes)])
  }

  /** A completion resumes the operation only if operation and phase are the current ones. */
  predicate Wakes(q: Queue, op: nat, phase: nat) {
    q.activeOp == op && q.phase == phase
  }

  /** Resuming a coroutine that is not suspended in a wait is undefined; runs never do (QueueRuns). */
  predicate SafeToRun(q: Queue) {
    q.strand != [] && (q.strand[0].Resume? && Wakes(q, q.strand[0].op, q.strand[0].phase) ==> q.activity.Awaiting?)
  }

  /** The first job of the strand is carried out. */
  function JobRun(q: Queue): Queue
    requires SafeToRun(q)
  {
    var rest := q.(strand := q.strand[1..]);
    match q.strand[0]
    case Push(e) => Pumped(rest.(commands := rest.commands + [e]))
    case Settle(_) => Pumped(rest)
    case Resume(op, phase) => if Wakes(q, op, phase) then rest.(activity := Running(q.activity.entry)) else rest
  }

  class BusinessScheduler {
    const capacity: nat
    var pending: nat
    var bytes: nat

    ghost function View(): Counters
      reads this
    {
      Counters(pending, bytes)
    }

    constructor (capacity: nat)
      ensures this.capacity == capacity && View() == Counters(0, 0)
    {
      this.capacity := capacity;
      pending, bytes := 0, 0;
    }

    method Reserve(terminal: bool, size: nat) returns (granted: bool)
      requires bytes <= SCHEDULER_BYTES
      modifies this
      ensures granted == Admits(terminal, size, old(View()), capacity, SCHEDULER_BYTES)
      ensures granted <==> old(bytes) + size <= SCHEDULER_BYTES && (old(pending) >= capacity ==> terminal)
      ensures View() == if granted then Counters(old(pending) + 1, old(bytes) + size) else old(View())
      ensures bytes <= SCHEDULER_BYTES
    {
      if (!terminal && pending >= capacity) || size > SCHEDULER_BYTES - bytes {
        return false;
      }
      pending := pending + 1;
      bytes := bytes + size;
      return true;
    }

    method Release(size: nat)
      requires pending > 0 && bytes >= size
      modifies this
      ensures View() == Counters(old(pending) - 1, old(bytes) - size)
    {
      bytes := bytes - size;
      pending := pending - 1;
    }
  }

  class SerialCommandQueue {
    const scheduler: BusinessScheduler
    const capacity: nat
    var pending: nat
    var bytes: nat
    var commands: seq<Entry>
    var nextOp: nat
    var activeOp: nat
    var phase: nat
    /** Kept by the library: the jobs posted to the strand, and the coroutine of the operation. */
    var strand: seq<Job>
    var activity: Activity

    ghost function View(): Queue
      reads this
    {
      Queue(capacity, Counters(pending, bytes), commands, strand, nextOp, activeOp, phase, activity)
    }

    constructor (scheduler: BusinessScheduler, capacity: nat)
      ensures this.scheduler == scheduler && View() == EmptyQueue(capacity)
    {
      this.scheduler, this.capacity := scheduler, capacity;
      pending, bytes, commands, strand := 0, 0, [], [];
      nextOp, activeOp, phase, activity := 0, 0, 0, Idle;
    }

    method Submit(e: Entry) returns (accepted: bool)
      requires bytes <= QUEUE_BYTES && scheduler.bytes <= SCHEDULER_BYTES
      modifies this`pending, this`bytes, this`strand, scheduler
      ensures accepted == (Admits(e.terminal, e.bytes, old(View()).count, capacity, QUEUE_BYTES) &&
        Admits(e.terminal, e.bytes, old(scheduler.View()), scheduler.capacity, SCHEDULER_BYTES))
      ensures accepted <==>
        && old(bytes) + e.bytes <= QUEUE_BYTES && old(scheduler.bytes) + e.bytes <= SCHEDULER_BYTES
        && (old(pending) >= capacity || old(scheduler.pending) >= scheduler.capacity ==> e.terminal)
      ensures View() == if accepted then Submitted(old(View()), e) else old(View())
      ensures accepted ==> pending == old(pending) + 1 && bytes == old(bytes) + e.bytes
      ensures accepted ==> strand == old(strand) + [Push(e)]
      ensures scheduler.View() == if accepted
        then Counters(old(scheduler.pending) + 1, old(scheduler.bytes) + e.bytes) else old(scheduler.View())
      ensures bytes <= QUEUE_BYTES && scheduler.bytes <= SCHEDULER_BYTES
    {
      if (!e.terminal && pending >= capacity) || e.bytes > QUEUE_BYTES - bytes {
        return false;
      }
      var granted := scheduler.Reserve(e.terminal, e.bytes);
      if !granted {
        return false;
      }
      pending := pending + 1;
      bytes := bytes + e.bytes;
      strand := strand + [Push(e)];
      return true;
    }

    method Pump()
      modifies this
      ensures View() == Pumped(old(View()))
    {
      if activeOp != 0 || commands == [] {
        return;
      }
      nextOp := nextOp + 1;
      activeOp := nextOp;
      phase := 0;
      activity := Starting(commands[0]);
      commands := commands[1..];
    }

    method RunJob()
      requires SafeToRun(View())
      modifies this
      ensures View() == JobRun(old(View()))
    {
      var job := strand[0];
      strand := strand[1..];
      match job {
        case Push(e) =>
          commands := commands + [e];
          Pump();
        case Settle(_) => Pump();
        case Resume(op, at) =>
          if activeOp == op && phase == at {
            activity := Running(activity.entry);
          }
      }
    }

    method Wait() returns (awaited: nat)
      requires activity.Running?
      modifies this
      ensures View() == Waited(old(View())) && awaited == phase
    {
      phase := phase + 1;
      activity := Awaiting(activity.entry);
      return phase;
    }

    method End()
      requires activity.Running? && pending > 0 && bytes >= activity.entry.bytes
      modifies this
      ensures View() == Ended(old(View()))
    {
      var e := activity.entry;
      activeOp := 0;
      activity := Idle;
      pending := pending - 1;
      bytes := bytes - e.bytes;
      strand := strand + [Settle(e.bytes)];
    }
  }
}
