/** The task manager itself: two ring buffers and the table of executor channels. */
module TaskManagers {
  import opened Wrappers
  import opened RingBuffers
  import opened Dispatching

  /** A popped task back in front of the queue. */
  function PutBack(next: Option<Copy>, d: Dispatcher): Dispatcher {
    match next
    case None => d
    case Some(c) => d.(waitingTasks := [c] + d.waitingTasks)
  }

  class TaskManager {
    const waitingTasks: LockFreeBoundedRingBuffer<Copy>
    const waitingExecutors: LockFreeBoundedRingBuffer<ExecutorId>
    var executors: map<ExecutorId, seq<Copy>>

    ghost predicate Valid()
      reads this, waitingTasks, waitingTasks.buffer, waitingExecutors, waitingExecutors.buffer
    {
      && waitingTasks.Valid() && waitingTasks.buffer.Length == TASK_CAPACITY
      && waitingExecutors.Valid() && waitingExecutors.buffer.Length == EXECUTOR_CAPACITY
      && waitingTasks as object != waitingExecutors
      && waitingTasks.buffer as object != waitingExecutors.buffer
    }

    ghost function State(): Dispatcher
      requires Valid()
      reads this, waitingTasks, waitingTasks.buffer, waitingExecutors, waitingExecutors.buffer
    {
      Dispatcher(waitingTasks.Contents(), waitingExecutors.Contents(), executors)
    }

    constructor ()
      ensures Valid() && State() == Dispatcher([], [], map[])
      ensures waitingTasks.buffer.Length == 128_000 && waitingExecutors.buffer.Length == 128_000
      ensures fresh(waitingTasks) && fresh(waitingTasks.buffer)
      ensures fresh(waitingExecutors) && fresh(waitingExecutors.buffer)
    {
      waitingTasks := new LockFreeBoundedRingBuffer<Copy>(TASK_CAPACITY);
      waitingExecutors := new LockFreeBoundedRingBuffer<ExecutorId>(EXECUTOR_CAPACITY);
      executors := map[];
    }

    /** Send on the executor's channel. */
    method Send(e: ExecutorId, c: Copy) returns (out: Outcome)
      requires Valid()
      modifies this
      ensures Valid()
      ensures (State(), out) == SendTo(old(State()), e, c)
      ensures out == if e !in old(executors) then Panicked else if |old(executors)[e]| >= 10_000 then Blocked else Sent(e)
      ensures executors == if out == Sent(e) then old(executors)[e := old(executors)[e] + [c]] else old(executors)
    {
      if e !in executors {
        return Panicked;
      }
      if |executors[e]| >= CHANNEL_CAPACITY {
        return Blocked;
      }
      executors := executors[e := executors[e] + [c]];
      return Sent(e);
    }

    /** Put an executor among the waiting ones. */
    method Park(e: ExecutorId) returns (out: Outcome)
      requires Valid()
      modifies waitingExecutors, waitingExecutors.buffer
      ensures Valid()
      ensures (State(), out) == ParkExecutor(old(State()), e)
    {
      var ok := waitingExecutors.Push(e);
      return if ok then Parked else Panicked;
    }

    method PopTask() returns (next: Option<Copy>)
      requires Valid()
      modifies waitingTasks, waitingTasks.buffer
      ensures Valid()
      ensures PutBack(next, State()) == old(State())
      ensures next.None? ==> State().waitingTasks == []
    {
      next := waitingTasks.Pop();
      assert next.Some? ==> old(waitingTasks.Contents()) == [next.value] + waitingTasks.Contents();
    }

    /** The executor's end of its channel. */
    method Receive(e: ExecutorId) returns (c: Copy)
      requires Valid() && e in executors && executors[e] != []
      modifies this
      ensures Valid()
      ensures c == old(executors)[e][0] && State() == ReceiveCall(old(State()), e)
    {
      c := executors[e][0];
      executors := executors[e := executors[e][1..]];
    }

    method RegisterExecutor(e: ExecutorId) returns (out: Outcome)
      requires Valid()
      modifies this, waitingExecutors, waitingExecutors.buffer
      ensures Valid()
      ensures (State(), out) == RegisterCall(old(State()), e)
    {
      executors := executors[e := []];
      out := Park(e);
    }

    method ExecutorReady(e: ExecutorId, aborted: set<TaskId>) returns (out: Outcome)
      requires Valid()
      modifies this, waitingTasks, waitingTasks.buffer, waitingExecutors, waitingExecutors.buffer
      ensures Valid()
      ensures (State(), out) == ReadyCall(old(State()), aborted, e)
    {
      ghost var was := State();
      var next := PopTask();
      while next.Some?
        invariant Valid()
        invariant next.None? ==> State().waitingTasks == []
        invariant ReadyCall(PutBack(next, State()), aborted, e) == ReadyCall(was, aborted, e)
        decreases if next.Some? then 1 + |State().waitingTasks| else 0
      {
        SkipAborted(State(), aborted, e, next.value);
        if next.value.task !in aborted {
          out := Send(e, next.value);
          return;
        }
        next := PopTask();
      }
      out := Park(e);
    }

    method RegisterOrExecuteNonBlockingTask(c: Copy, aborted: set<TaskId>) returns (out: Outcome)
      requires Valid()
      modifies this, waitingTasks, waitingTasks.buffer, waitingExecutors, waitingExecutors.buffer
      ensures Valid()
      ensures (State(), out) == SubmitCall(old(State()), aborted, c)
    {
      if c.task in aborted {
        return Dropped;
      }
      var executor := waitingExecutors.Pop();
      if executor.Some? {
        out := Send(executor.value, c);
        return;
      }
      var ok := waitingTasks.Push(c);
      return if ok then Queued else Panicked;
    }
  }
}
