/**
 The task manager, its executors and the task wakers, every queue operation, channel
 operation, flag read and reference count update a step of its own, by any number of
 threads.

 The calls to the task manager and the executor threads are tables of program points.
 The lemmas hold for every interleaving.
 */
module DispatcherSteps {
  import opened Dispatching

  /** A call that submits a copy: after a spawn or a wake. */
  datatype Call =
    | Checking(copy: Copy)                        // before the test for an aborted task
    | Seeking(copy: Copy)                         // before the pop of a waiting executor
    | Claiming(copy: Copy, executor: ExecutorId)  // has popped an executor, before the send
    | Queueing(copy: Copy)                        // has found no executor, before the push
    | Returned

  /** Where an executor thread is. */
  datatype Phase =
    | Receiving                                   // in `recv` on its channel
    | Received(copy: Copy)                        // before the lock of the future
    | Polling(copy: Copy)                         // polls, under the lock, with a waker in its context
    | Polled(copy: Copy)                          // has released the lock, still has the waker
    | Releasing(copy: Copy)                       // has dropped the waker, still has the task
    | Reporting                                   // in `executor_ready`, before the pop of a task
    | Inspecting(copy: Copy)                      // has popped a task, before the test for an aborted one
    | Forwarding(copy: Copy)                      // before the send of the task to its own channel
    | Parking                                     // has found no task, before the push of its id

  datatype Executor = Executor(phase: Phase, channel: seq<Copy>)

  datatype PollEvent = Began(task: TaskId) | Pended(task: TaskId) | Completed(task: TaskId)

  /**
   The flags and reference counts of the tasks: which have been spawned, aborted, and
   polled to completion, how many references each has, and how many of them are wakers
   kept outside executors.
   */
  datatype Tasks = Tasks(
    spawned: set<TaskId>,
    aborted: set<TaskId>,
    completed: set<TaskId>,
    strong: multiset<TaskId>,
    wakers: multiset<TaskId>)

  /**
   Histories: the copies submitted (number i has serial i), those dropped as aborted, those
   at the end of their turn on an executor, those refused by a full queue, and what
   happened to futures.
   */
  datatype Log = Log(
    submitted: seq<Copy>,
    dropped: multiset<Copy>,
    finished: multiset<Copy>,
    refused: multiset<Copy>,
    polls: seq<PollEvent>)

  datatype State = State(
    calls: seq<Call>,
    executors: seq<Executor>,
    waitingTasks: seq<Copy>,
    waitingExecutors: seq<ExecutorId>,
    tasks: Tasks,
    log: Log)

  datatype Step =
    | Spawn(task: TaskId) | CloneWaker(task: TaskId) | Wake(task: TaskId) | WakeByRef(task: TaskId)
    | DropWaker(task: TaskId) | Abort(task: TaskId)
    | Check(call: nat) | Seek(call: nat) | Send(call: nat) | Queue(call: nat)
    | Receive(executor: nat) | Lock(executor: nat) | Finish(executor: nat, ready: bool)
    | DropContext(executor: nat) | Release(executor: nat)
    | PopTask(executor: nat) | Inspect(executor: nat) | Forward(executor: nat) | Park(executor: nat)

  function InitState(n: nat): State {
    State([], seq(n, i => Executor(Receiving, [])), [], seq(n, i => i),
          Tasks({}, {}, {}, multiset{}, multiset{}), Log([], multiset{}, multiset{}, multiset{}, []))
  }

  /** A waker of the task exists: a stored one, or the one in the context of a running poll. */
  predicate HasWaker(s: State, t: TaskId) {
    t in s.tasks.wakers || Locked(s, t)
  }

  /** An executor polls the task, so it holds the lock of its future. */
  predicate Locked(s: State, t: TaskId) {
    exists e :: 0 <= e < |s.executors| && s.executors[e].phase.Polling? && s.executors[e].phase.copy.task == t
  }

  predicate HasRoom(s: State, e: ExecutorId) {
    e < |s.executors| && |s.executors[e].channel| < CHANNEL_CAPACITY
  }

  predicate Enabled(s: State, step: Step) {
    match step
    case Spawn(t) => t !in s.tasks.spawned
    case CloneWaker(t) => HasWaker(s, t)
    case Wake(t) => t in s.tasks.wakers
    case WakeByRef(t) => HasWaker(s, t)
    case DropWaker(t) => t in s.tasks.wakers
    case Abort(t) => t in s.tasks.spawned
    case Check(k) => k < |s.calls| && s.calls[k].Checking?
    case Seek(k) => k < |s.calls| && s.calls[k].Seeking?
    case Send(k) => k < |s.calls| && s.calls[k].Claiming? && HasRoom(s, s.calls[k].executor)
    case Queue(k) => k < |s.calls| && s.calls[k].Queueing?
    case Receive(e) => e < |s.executors| && s.executors[e].phase.Receiving? && s.executors[e].channel != []
    case Lock(e) => e < |s.executors| && s.executors[e].phase.Received? && !Locked(s, s.executors[e].phase.copy.task)
    case Finish(e, _) => e < |s.executors| && s.executors[e].phase.Polling?
    case DropContext(e) => e < |s.executors| && s.executors[e].phase.Polled?
    case Release(e) => e < |s.executors| && s.executors[e].phase.Releasing?
    case PopTask(e) => e < |s.executors| && s.executors[e].phase.Reporting?
    case Inspect(e) => e < |s.executors| && s.executors[e].phase.Inspecting?
    case Forward(e) => e < |s.executors| && s.executors[e].phase.Forwarding? && HasRoom(s, e)
    case Park(e) => e < |s.executors| && s.executors[e].phase.Parking? && |s.waitingExecutors| < EXECUTOR_CAPACITY
  }

  function SetCall(s: State, k: nat, call: Call): State
    requires k < |s.calls|
  {
    s.(calls := s.calls[k := call])
  }

  function SetPhase(s: State, e: nat, phase: Phase): State
    requires e < |s.executors|
  {
    s.(executors := s.executors[e := s.executors[e].(phase := phase)])
  }

  function Deliver(s: State, e: nat, c: Copy): State
    requires e < |s.executors|
  {
    s.(executors := s.executors[e := s.executors[e].(channel := s.executors[e].channel + [c])])
  }

  /** A new call for a copy of the task, which brings its reference along. */
  function Enter(s: State, t: TaskId): State {
    var c := Copy(t, |s.log.submitted|);
    s.(calls := s.calls + [Checking(c)], log := s.log.(submitted := s.log.submitted + [c]))
  }

  function AddReference(s: State, t: TaskId): State {
    s.(tasks := s.tasks.(strong := s.tasks.strong + multiset{t}))
  }

  function DropReference(s: State, t: TaskId): State {
    s.(tasks := s.tasks.(strong := s.tasks.strong - multiset{t}))
  }

  /** An aborted copy goes, and its reference with it. */
  function DropCopy(s: State, c: Copy): State {
    DropReference(s.(log := s.log.(dropped := s.log.dropped + multiset{c})), c.task)
  }

  function Note(s: State, event: PollEvent): State {
    s.(log := s.log.(polls := s.log.polls + [event]))
  }

  function Apply(s: State, step: Step): (s': State)
    requires Enabled(s, step)
    ensures |s'.executors| == |s.executors| && |s'.calls| >= |s.calls|
  {
    match step
    case Spawn(t) =>
      Enter(AddReference(s.(tasks := s.tasks.(spawned := s.tasks.spawned + {t})), t), t)
    case CloneWaker(t) =>
      AddReference(s.(tasks := s.tasks.(wakers := s.tasks.wakers + multiset{t})), t)
    case Wake(t) =>
      Enter(s.(tasks := s.tasks.(wakers := s.tasks.wakers - multiset{t})), t)
    case WakeByRef(t) =>
      Enter(AddReference(s, t), t)
    case DropWaker(t) =>
      DropReference(s.(tasks := s.tasks.(wakers := s.tasks.wakers - multiset{t})), t)
    case Abort(t) =>
      s.(tasks := s.tasks.(aborted := s.tasks.aborted + {t}))
    case Check(k) =>
      var c := s.calls[k].copy;
      if c.task in s.tasks.aborted then DropCopy(SetCall(s, k, Returned), c) else SetCall(s, k, Seeking(c))
    case Seek(k) =>
      var c := s.calls[k].copy;
      if s.waitingExecutors != []
      then SetCall(s, k, Claiming(c, s.waitingExecutors[0])).(waitingExecutors := s.waitingExecutors[1..])
      else SetCall(s, k, Queueing(c))
    case Send(k) => Deliver(SetCall(s, k, Returned), s.calls[k].executor, s.calls[k].copy)
    case Queue(k) =>
      var c := s.calls[k].copy;
      if |s.waitingTasks| < TASK_CAPACITY
      then SetCall(s, k, Returned).(waitingTasks := s.waitingTasks + [c])
      else DropReference(SetCall(s, k, Returned).(log := s.log.(refused := s.log.refused + multiset{c})), c.task)
    case Receive(e) =>
      var x := s.executors[e];
      s.(executors := s.executors[e := Executor(Received(x.channel[0]), x.channel[1..])])
    case Lock(e) =>
      var c := s.executors[e].phase.copy;
      if c.task in s.tasks.completed
      then AddReference(SetPhase(s, e, Polled(c)), c.task)
      else AddReference(Note(SetPhase(s, e, Polling(c)), Began(c.task)), c.task)
    case Finish(e, ready) =>
      var c := s.executors[e].phase.copy;
      if ready
      then Note(SetPhase(s, e, Polled(c)), Completed(c.task)).(tasks := s.tasks.(completed := s.tasks.completed + {c.task}))
      else Note(SetPhase(s, e, Polled(c)), Pended(c.task))
    case DropContext(e) =>
      var c := s.executors[e].phase.copy;
      DropReference(SetPhase(s, e, Releasing(c)), c.task)
    case Release(e) =>
      var c := s.executors[e].phase.copy;
      DropReference(SetPhase(s, e, Reporting).(log := s.log.(finished := s.log.finished + multiset{c})), c.task)
    case PopTask(e) =>
      if s.waitingTasks != []
      then SetPhase(s, e, Inspecting(s.waitingTasks[0])).(waitingTasks := s.waitingTasks[1..])
      else SetPhase(s, e, Parking)
    case Inspect(e) =>
      var c := s.executors[e].phase.copy;
      if c.task in s.tasks.aborted then DropCopy(SetPhase(s, e, Reporting), c) else SetPhase(s, e, Forwarding(c))
    case Forward(e) => Deliver(SetPhase(s, e, Receiving), e, s.executors[e].phase.copy)
    case Park(e) => SetPhase(s, e, Receiving).(waitingExecutors := s.waitingExecutors + [e])
  }

  predicate Runs(s: State, steps: seq<Step>)
    decreases |steps|
  {
    steps == [] || (Enabled(s, steps[0]) && Runs(Apply(s, steps[0]), steps[1..]))
  }

  function After(s: State, steps: seq<Step>): State
    requires Runs(s, steps)
    decreases |steps|
  {
    if steps == [] then s else After(Apply(s, steps[0]), steps[1..])
  }
}
