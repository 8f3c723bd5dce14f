/** Building a runtime, and the one-shot submission of a blocking call. */
module Runtimes {
  import opened Dispatching
  import opened DispatcherRuns
  import opened TaskManagers
  import opened Tasks

  /** Registers executors 0 to n - 1. False stands for the panic of an executor too many. */
  method Build(numWorkers: nat) returns (tm: TaskManager, ok: bool)
    ensures fresh(tm) && tm.Valid()
    ensures ok <==> numWorkers <= EXECUTOR_CAPACITY
    ensures ok ==> tm.State() == Registered(numWorkers)
  {
    tm := new TaskManager();
    RegisteredIsIdle(0);
    for i := 0 to numWorkers
      invariant tm.Valid() && fresh(tm)
      invariant fresh(tm.waitingTasks) && fresh(tm.waitingTasks.buffer)
      invariant fresh(tm.waitingExecutors) && fresh(tm.waitingExecutors.buffer)
      invariant i <= EXECUTOR_CAPACITY && tm.State() == Registered(i)
    {
      RegisteredIsIdle(i);
      var out := tm.RegisterExecutor(i);
      if out.Panicked? {
        return tm, false;
      }
    }
    ok := true;
  }

  /** Submits a task that no one can abort. The caller then waits on a channel of its own. */
  method RunBlocking(tm: TaskManager, tag: TaskId, serial: nat, aborted: set<TaskId>) returns (task: Task, out: Outcome)
    requires tm.Valid() && tag !in aborted
    modifies tm, tm.waitingTasks, tm.waitingTasks.buffer, tm.waitingExecutors, tm.waitingExecutors.buffer
    ensures tm.Valid()
    ensures (tm.State(), out) == SubmitCall(old(tm.State()), aborted, Copy(tag, serial))
    ensures fresh(task) && task.tag == tag && task.pending && !task.abort.raised && task.strong == Kept(out)
  {
    var abort := new AbortFlag();
    task := new Task(tag, abort);
    out := tm.RegisterOrExecuteNonBlockingTask(Copy(tag, serial), aborted);
    if out.Panicked? {
      task.strong := task.strong - 1;
    }
  }

  /** The first task of a new runtime goes straight to executor 0; with no executor it waits. */
  lemma FirstSubmission(n: nat, c: Copy)
    requires n <= EXECUTOR_CAPACITY
    ensures SubmitCall(Registered(n), {}, c).1 == if n == 0 then Queued else Sent(0)
  {
    RegisteredIsIdle(n);
  }
}
