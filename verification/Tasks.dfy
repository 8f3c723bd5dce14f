/**
 Tasks, their wakers, and the turn of an executor.

 `strong` is the reference count of a task. The methods of the waker table and the turn of
 an executor say by how much it changes, given how the task manager's call ends.
 */
module Tasks {
  import opened Dispatching
  import opened TaskManagers
  import DispatcherSteps
  import ExecutorPlaces
  import Overlaps

  /** The flag that a task and its join handle share. */
  class AbortFlag {
    var raised: bool

    constructor ()
      ensures !raised
    {
      raised := false;
    }
  }

  /** The references that the task manager keeps of a copy handed to it: unwinding and aborting drop it. */
  function Kept(out: Outcome): nat {
    if out.Dropped? || out.Panicked? then 0 else 1
  }

  class Task {
    const tag: TaskId
    const abort: AbortFlag
    /** Whether the future is still there to be polled. */
    var pending: bool
    var strong: nat

    /** A new task, with one reference to it. */
    constructor (tag: TaskId, abort: AbortFlag)
      ensures this.tag == tag && this.abort == abort && pending && strong == 1
    {
      this.tag, this.abort := tag, abort;
      pending, strong := true, 1;
    }

    method HasAborted() returns (b: bool)
      ensures b <==> abort.raised
    {
      b := abort.raised;
    }

    /** The waker takes over the reference. */
    method CloneWaker()
      requires strong > 0
      modifies `strong
      ensures strong == old(strong) + 1
    {
      strong := strong + 1;
    }

    method DropWaker()
      requires strong > 0
      modifies `strong
      ensures strong == old(strong) - 1
    {
      strong := strong - 1;
    }

    /** Waking hands the waker's own reference to the task manager. */
    method Wake(tm: TaskManager, serial: nat, aborted: set<TaskId>) returns (out: Outcome)
      requires tm.Valid() && strong > 0 && (tag in aborted <==> abort.raised)
      modifies `strong, tm, tm.waitingTasks, tm.waitingTasks.buffer, tm.waitingExecutors, tm.waitingExecutors.buffer
      ensures tm.Valid()
      ensures (tm.State(), out) == SubmitCall(old(tm.State()), aborted, Copy(tag, serial))
      ensures strong == old(strong) - 1 + Kept(out)
      ensures strong == if out.Dropped? || out.Panicked? then old(strong) - 1 else old(strong)
    {
      out := tm.RegisterOrExecuteNonBlockingTask(Copy(tag, serial), aborted);
      if out.Dropped? || out.Panicked? {
        strong := strong - 1;
      }
    }

    /** Waking by reference hands over a new reference; a panic also releases the borrowed one. */
    method WakeByRef(tm: TaskManager, serial: nat, aborted: set<TaskId>) returns (out: Outcome)
      requires tm.Valid() && strong > 0 && (tag in aborted <==> abort.raised)
      modifies `strong, tm, tm.waitingTasks, tm.waitingTasks.buffer, tm.waitingExecutors, tm.waitingExecutors.buffer
      ensures tm.Valid()
      ensures (tm.State(), out) == SubmitCall(old(tm.State()), aborted, Copy(tag, serial))
      ensures strong == if out.Panicked? then old(strong) - 1
                        else if out.Dropped? then old(strong)
                        else old(strong) + 1
    {
      strong := strong + 1;
      out := tm.RegisterOrExecuteNonBlockingTask(Copy(tag, serial), aborted);
      if out.Dropped? || out.Panicked? {
        strong := strong - 1;
      }
      if out.Panicked? {
        strong := strong - 1;
      }
    }
  }

  class Executor {
    const id: ExecutorId

    constructor (id: ExecutorId)
      ensures this.id == id
    {
      this.id := id;
    }

    /** Poll under the lock. If the future is there, the poll is `ready` or not, and keeps `clones` wakers. */
    method ForwardTask(task: Task, ready: bool, clones: nat) returns (polled: bool)
      requires task.strong > 0
      modifies task`pending, task`strong
      ensures polled == old(task.pending)
      ensures task.pending <==> old(task.pending) && !ready
      ensures task.strong == old(task.strong) - 1 + (if polled then clones else 0)
    {
      task.CloneWaker();
      polled := task.pending;
      if polled {
        task.strong := task.strong + clones;
        if ready {
          task.pending := false;
        }
      }
      task.DropWaker();
      task.strong := task.strong - 1;
    }

    /** One turn: receive a task, poll it, report. */
    method Turn(tm: TaskManager, tasks: map<TaskId, Task>, ready: bool, clones: nat, aborted: set<TaskId>)
      returns (task: Task, out: Outcome)
      requires tm.Valid() && id in tm.executors && tm.executors[id] != []
      requires tm.executors[id][0].task in tasks && tasks[tm.executors[id][0].task].strong > 0
      modifies tasks.Values
      modifies tm, tm.waitingTasks, tm.waitingTasks.buffer, tm.waitingExecutors, tm.waitingExecutors.buffer
      ensures tm.Valid() && task == tasks[old(tm.executors)[id][0].task]
      ensures (tm.State(), out) == ReadyCall(ReceiveCall(old(tm.State()), id), aborted, id)
      ensures task.pending <==> old(task.pending) && !ready
      ensures task.strong == old(task.strong) - 1 + (if old(task.pending) then clones else 0)
    {
      var c := tm.Receive(id);
      task := tasks[c.task];
      var _ := ForwardTask(task, ready, clones);
      out := tm.ExecutorReady(id, aborted);
    }
  }

  // ---------------------------------------------------------------------------
  // The count and the steps of DispatcherSteps

  /** An uninterrupted submission keeps or drops the reference of its copy as `Kept` says. */
  lemma SubmissionKeepsReference(s: DispatcherSteps.State, k: nat)
    requires ExecutorPlaces.Exclusive(s) && DispatcherSteps.Enabled(s, DispatcherSteps.Check(k))
    ensures var c := s.calls[k].copy;
            var out := SubmitCall(Overlaps.View(s), s.tasks.aborted, c).1;
            Overlaps.SubmitAtOnce(s, k).tasks.strong
            == if out.Dropped? || out.Panicked? then s.tasks.strong - multiset{c.task} else s.tasks.strong
  {
    var checked := DispatcherSteps.Apply(s, DispatcherSteps.Check(k));
    if !checked.calls[k].Returned? {
      ExecutorPlaces.StepKeepsExclusive(s, DispatcherSteps.Check(k));
      var sought := DispatcherSteps.Apply(checked, DispatcherSteps.Seek(k));
      ExecutorPlaces.StepKeepsExclusive(checked, DispatcherSteps.Seek(k));
      ExecutorPlaces.NothingBlocks(sought);
    }
  }
}
