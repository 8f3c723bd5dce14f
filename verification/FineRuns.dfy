/**
 What runs of the fine machine bring about, read off the steps alone: every spawn and wake
 is a submission, every lock of an unfinished future is a poll, and every thread can go on.
 */
module FineRuns {
  import opened Dispatching
  import opened DispatcherSteps
  import opened ExecutorPlaces
  import opened Ledgers
  import opened Futures
  import opened Overlaps

  // ---------------------------------------------------------------------------
  // Submissions, aborts and wakers

  function SubmittedBy(step: Step): seq<TaskId> {
    match step
    case Spawn(t) => [t]
    case Wake(t) => [t]
    case WakeByRef(t) => [t]
    case _ => []
  }

  /** The tasks spawned and woken, in order: none is merged with another. */
  function SubmittedIn(steps: seq<Step>): seq<TaskId> {
    if steps == [] then [] else SubmittedBy(steps[0]) + SubmittedIn(steps[1..])
  }

  function SpawnedIn(steps: seq<Step>): set<TaskId> {
    if steps == [] then {} else (if steps[0].Spawn? then {steps[0].task} else {}) + SpawnedIn(steps[1..])
  }

  function AbortedIn(steps: seq<Step>): set<TaskId> {
    if steps == [] then {} else (if steps[0].Abort? then {steps[0].task} else {}) + AbortedIn(steps[1..])
  }

  /** How often the step occurs. */
  function Times(steps: seq<Step>, step: Step): nat {
    multiset(steps)[step]
  }

  lemma SubmittedByStep(s: State, step: Step)
    requires Enabled(s, step)
    ensures TasksOf(Apply(s, step).log.submitted) == TasksOf(s.log.submitted) + SubmittedBy(step)
  {
    var s' := Apply(s, step);
    match step
    case Spawn(t) => Appended(s.log.submitted, Copy(t, |s.log.submitted|));
    case Wake(t) => Appended(s.log.submitted, Copy(t, |s.log.submitted|));
    case WakeByRef(t) => Appended(s.log.submitted, Copy(t, |s.log.submitted|));
    case _ => assert s'.log.submitted == s.log.submitted;
  }

  lemma Appended(copies: seq<Copy>, c: Copy)
    ensures TasksOf(copies + [c]) == TasksOf(copies) + [c.task]
  {
    assert (copies + [c])[..|copies|] == copies;
  }

  lemma {:induction false} SubmittedByRun(s: State, steps: seq<Step>)
    requires Runs(s, steps)
    ensures TasksOf(After(s, steps).log.submitted) == TasksOf(s.log.submitted) + SubmittedIn(steps)
    decreases |steps|
  {
    if steps != [] {
      SubmittedByStep(s, steps[0]);
      SubmittedByRun(Apply(s, steps[0]), steps[1..]);
    }
  }

  /** Steps on queues and channels raise no flag. */
  lemma NoFlagByQueues(s: State, step: Step)
    requires Enabled(s, step) && (step.Check? || step.Seek? || step.Send? || step.Queue? || step.Receive?)
    ensures Apply(s, step).tasks.(strong := s.tasks.strong) == s.tasks
  {
  }

  lemma NoFlagByTurns(s: State, step: Step)
    requires Enabled(s, step)
    requires step.Lock? || step.Finish? || step.DropContext? || step.Release?
    ensures Apply(s, step).tasks.(strong := s.tasks.strong, completed := s.tasks.completed) == s.tasks
  {
  }

  lemma NoFlagByReports(s: State, step: Step)
    requires Enabled(s, step) && (step.PopTask? || step.Inspect? || step.Forward? || step.Park?)
    ensures Apply(s, step).tasks.(strong := s.tasks.strong) == s.tasks
  {
  }

  lemma FlagsByStep(s: State, step: Step)
    requires Enabled(s, step)
    ensures Apply(s, step).tasks.spawned == if step.Spawn? then s.tasks.spawned + {step.task} else s.tasks.spawned
    ensures Apply(s, step).tasks.aborted == if step.Abort? then s.tasks.aborted + {step.task} else s.tasks.aborted
  {
    if step.Check? || step.Seek? || step.Send? || step.Queue? || step.Receive? {
      NoFlagByQueues(s, step);
    } else if step.Lock? || step.Finish? || step.DropContext? || step.Release? {
      NoFlagByTurns(s, step);
    } else if step.PopTask? || step.Inspect? || step.Forward? || step.Park? {
      NoFlagByReports(s, step);
    }
  }

  lemma {:induction false} FlagsByRun(s: State, steps: seq<Step>)
    requires Runs(s, steps)
    ensures After(s, steps).tasks.spawned == s.tasks.spawned + SpawnedIn(steps)
    ensures After(s, steps).tasks.aborted == s.tasks.aborted + AbortedIn(steps)
    decreases |steps|
  {
    if steps != [] {
      FlagsByStep(s, steps[0]);
      FlagsByRun(Apply(s, steps[0]), steps[1..]);
    }
  }

  lemma WakersByStep(s: State, step: Step, t: TaskId)
    requires Enabled(s, step)
    ensures Apply(s, step).tasks.wakers[t] + One(step == Wake(t)) + One(step == DropWaker(t))
         == s.tasks.wakers[t] + One(step == CloneWaker(t))
  {
  }

  lemma {:induction false} WakersByRun(s: State, steps: seq<Step>, t: TaskId)
    requires Runs(s, steps)
    ensures After(s, steps).tasks.wakers[t] + Times(steps, Wake(t)) + Times(steps, DropWaker(t))
         == s.tasks.wakers[t] + Times(steps, CloneWaker(t))
    decreases |steps|
  {
    if steps != [] {
      WakersByStep(s, steps[0], t);
      WakersByRun(Apply(s, steps[0]), steps[1..], t);
      assert steps == [steps[0]] + steps[1..];
      assert forall x :: Times(steps, x) == One(steps[0] == x) + Times(steps[1..], x);
    }
  }

  /**
   Over every run: the submissions are the spawns and wakes, each once and in their order; the
   flags raised are those of the aborts; the wakers kept are the clones not consumed or dropped.
   */
  lemma RunIsRecorded(n: nat, steps: seq<Step>, t: TaskId)
    requires Runs(InitState(n), steps)
    ensures var s := After(InitState(n), steps);
            && TasksOf(s.log.submitted) == SubmittedIn(steps)
            && s.tasks.spawned == SpawnedIn(steps)
            && s.tasks.aborted == AbortedIn(steps)
            && s.tasks.wakers[t] + Times(steps, Wake(t)) + Times(steps, DropWaker(t)) == Times(steps, CloneWaker(t))
  {
    var s := InitState(n);
    SubmittedByRun(s, steps);
    FlagsByRun(s, steps);
    WakersByRun(s, steps, t);
    assert [] + SubmittedIn(steps) == SubmittedIn(steps);
  }

  // ---------------------------------------------------------------------------
  // Polls

  /** The step begins a poll of the task, or ends one: a lock begins one exactly if no poll has completed. */
  predicate Makes(s: State, step: Step, event: PollEvent)
    requires Enabled(s, step)
  {
    match event
    case Began(t) => step.Lock? && s.executors[step.executor].phase.copy.task == t && Completed(t) !in s.log.polls
    case Pended(t) => step.Finish? && s.executors[step.executor].phase.copy.task == t && !step.ready
    case Completed(t) => step.Finish? && s.executors[step.executor].phase.copy.task == t && step.ready
  }

  /** How many steps of the run make the event. */
  function Made(s: State, steps: seq<Step>, event: PollEvent): nat
    requires Runs(s, steps)
    decreases |steps|
  {
    if steps == [] then 0 else One(Makes(s, steps[0], event)) + Made(Apply(s, steps[0]), steps[1..], event)
  }

  lemma LockBegins(s: State, e: nat, event: PollEvent)
    requires PollInv(s, event.task) && Enabled(s, Lock(e))
    ensures multiset(Apply(s, Lock(e)).log.polls)[event] == multiset(s.log.polls)[event] + One(Makes(s, Lock(e), event))
  {
  }

  lemma FinishEnds(s: State, e: nat, ready: bool, event: PollEvent)
    requires Enabled(s, Finish(e, ready))
    ensures multiset(Apply(s, Finish(e, ready)).log.polls)[event]
         == multiset(s.log.polls)[event] + One(Makes(s, Finish(e, ready), event))
  {
  }

  lemma StepMakes(s: State, step: Step, event: PollEvent)
    requires PollInv(s, event.task) && Enabled(s, step)
    ensures multiset(Apply(s, step).log.polls)[event] == multiset(s.log.polls)[event] + One(Makes(s, step, event))
  {
    match step
    case Lock(e) => LockBegins(s, e, event);
    case Finish(e, ready) => FinishEnds(s, e, ready, event);
    case _ => OtherStepsPollNothing(s, step, event.task);
  }

  lemma {:induction false} RunMakes(s: State, steps: seq<Step>, event: PollEvent)
    requires PollInv(s, event.task) && Runs(s, steps)
    ensures multiset(After(s, steps).log.polls)[event] == multiset(s.log.polls)[event] + Made(s, steps, event)
    decreases |steps|
  {
    if steps != [] {
      StepMakes(s, steps[0], event);
      StepKeepsPollInv(s, steps[0], event.task);
      RunMakes(Apply(s, steps[0]), steps[1..], event);
    }
  }

  /** Over every run, each lock of a copy of an unfinished task polls it, no other step does, and each poll ends as its future answers. */
  lemma EveryLockPolls(n: nat, steps: seq<Step>, event: PollEvent)
    requires Runs(InitState(n), steps)
    ensures multiset(After(InitState(n), steps).log.polls)[event] == Made(InitState(n), steps, event)
  {
    RunMakes(InitState(n), steps, event);
  }

  /** A turn that nothing interrupts, from the lock to the release. */
  function TurnAtOnce(s: State, e: nat, ready: bool): State
    requires Enabled(s, Lock(e))
  {
    var locked := Apply(s, Lock(e));
    var polled := if locked.executors[e].phase.Polling? then Apply(locked, Finish(e, ready)) else locked;
    Apply(Apply(polled, DropContext(e)), Release(e))
  }

  /** What a turn does: poll exactly if no poll has completed, and give up one reference. */
  ghost predicate Forwarded(s: State, s': State, e: nat, ready: bool)
    requires e < |s.executors| && s.executors[e].phase.Received?
  {
    var c := s.executors[e].phase.copy;
    var polled := Completed(c.task) !in s.log.polls;
    && s' == s.(
         executors := s.executors[e := s.executors[e].(phase := Reporting)],
         tasks := s.tasks.(
           strong := s.tasks.strong - multiset{c.task},
           completed := if polled && ready then s.tasks.completed + {c.task} else s.tasks.completed),
         log := s.log.(
           finished := s.log.finished + multiset{c},
           polls := if polled then s.log.polls + [Began(c.task), if ready then Completed(c.task) else Pended(c.task)]
                    else s.log.polls))
  }

  lemma PollIsMade(s: State, e: nat, ready: bool)
    requires Enabled(s, Lock(e)) && s.executors[e].phase.copy.task !in s.tasks.completed
    ensures var c := s.executors[e].phase.copy;
            && Enabled(Apply(s, Lock(e)), Finish(e, ready))
            && Apply(Apply(s, Lock(e)), Finish(e, ready)) == s.(
                 executors := s.executors[e := s.executors[e].(phase := Polled(c))],
                 tasks := s.tasks.(
                   strong := s.tasks.strong + multiset{c.task},
                   completed := if ready then s.tasks.completed + {c.task} else s.tasks.completed),
                 log := s.log.(
                   polls := s.log.polls + [Began(c.task), if ready then Completed(c.task) else Pended(c.task)]))
  {
    var c := s.executors[e].phase.copy;
    var end := if ready then Completed(c.task) else Pended(c.task);
    assert (s.log.polls + [Began(c.task)]) + [end] == s.log.polls + [Began(c.task), end];
  }

  lemma ContextGoes(s: State, e: nat)
    requires e < |s.executors| && s.executors[e].phase.Polled?
    ensures var c := s.executors[e].phase.copy;
            Apply(Apply(s, DropContext(e)), Release(e)) == s.(
              executors := s.executors[e := s.executors[e].(phase := Reporting)],
              tasks := s.tasks.(strong := s.tasks.strong - multiset{c.task} - multiset{c.task}),
              log := s.log.(finished := s.log.finished + multiset{c}))
  {
  }

  /** An uninterrupted turn is what `Executor.ForwardTask` says of a poll that keeps no waker. */
  lemma TurnIsForwardTask(s: State, e: nat, ready: bool)
    requires Enabled(s, Lock(e)) && PollInv(s, s.executors[e].phase.copy.task)
    ensures Forwarded(s, TurnAtOnce(s, e, ready), e, ready)
    ensures Reaches(s, TurnAtOnce(s, e, ready))
  {
    var t := s.executors[e].phase.copy.task;
    if t in s.tasks.completed {
      FinishedIsSkipped(s, e, ready);
    } else {
      PollIsMade(s, e, ready);
      ContextGoes(Apply(Apply(s, Lock(e)), Finish(e, ready)), e);
    }
    assert s.tasks.strong + multiset{t} - multiset{t} - multiset{t} == s.tasks.strong - multiset{t};
    TurnIsRun(s, e, ready);
  }

  lemma FinishedIsSkipped(s: State, e: nat, ready: bool)
    requires Enabled(s, Lock(e)) && s.executors[e].phase.copy.task in s.tasks.completed
    ensures var c := s.executors[e].phase.copy;
            TurnAtOnce(s, e, ready) == s.(
              executors := s.executors[e := s.executors[e].(phase := Reporting)],
              tasks := s.tasks.(strong := s.tasks.strong + multiset{c.task} - multiset{c.task} - multiset{c.task}),
              log := s.log.(finished := s.log.finished + multiset{c}))
  {
    var locked := Apply(s, Lock(e));
    assert locked == s.(
      executors := s.executors[e := s.executors[e].(phase := Polled(s.executors[e].phase.copy))],
      tasks := s.tasks.(strong := s.tasks.strong + multiset{s.executors[e].phase.copy.task}));
    ContextGoes(locked, e);
  }

  lemma TurnIsRun(s: State, e: nat, ready: bool)
    requires Enabled(s, Lock(e))
    ensures Reaches(s, TurnAtOnce(s, e, ready))
  {
    var s' := TurnAtOnce(s, e, ready);
    var locked := Apply(s, Lock(e));
    var polled := if locked.executors[e].phase.Polling? then Apply(locked, Finish(e, ready)) else locked;
    ReachesItself(s');
    ReachesByStep(Apply(polled, DropContext(e)), Release(e), s');
    ReachesByStep(polled, DropContext(e), s');
    if locked.executors[e].phase.Polling? {
      ReachesByStep(locked, Finish(e, ready), s');
    }
    ReachesByStep(s, Lock(e), s');
  }

  // ---------------------------------------------------------------------------
  // No thread is stuck

  /** The next step of a call, of an executor. */
  predicate CallCanStep(s: State, k: nat) {
    Enabled(s, Check(k)) || Enabled(s, Seek(k)) || Enabled(s, Send(k)) || Enabled(s, Queue(k))
  }

  predicate ExecutorCanStep(s: State, e: nat) {
    || Enabled(s, Receive(e)) || Enabled(s, Lock(e)) || Enabled(s, Finish(e, true)) || Enabled(s, DropContext(e))
    || Enabled(s, Release(e)) || Enabled(s, PopTask(e)) || Enabled(s, Inspect(e)) || Enabled(s, Forward(e))
    || Enabled(s, Park(e))
  }

  /** The executor waits for the lock of a future that another executor is polling, and that one can finish. */
  predicate WaitsForLock(s: State, e: nat) {
    && e < |s.executors| && s.executors[e].phase.Received?
    && exists d: nat :: d < |s.executors| && Polls(s.executors[d], s.executors[e].phase.copy.task) && ExecutorCanStep(s, d)
  }

  lemma CallsCanStep(s: State, k: nat)
    requires Exclusive(s) && k < |s.calls| && !s.calls[k].Returned?
    ensures CallCanStep(s, k)
  {
    NothingBlocks(s);
  }

  lemma ExecutorsCanStep(s: State, e: nat)
    requires Exclusive(s) && e < |s.executors| && s.executors[e] != Executor(Receiving, [])
    ensures ExecutorCanStep(s, e) || WaitsForLock(s, e)
  {
    match s.executors[e].phase
    case Forwarding(_) => NothingBlocks(s);
    case Parking => NothingBlocks(s);
    case Received(c) =>
      if Locked(s, c.task) {
        var d :| 0 <= d < |s.executors| && s.executors[d].phase.Polling? && s.executors[d].phase.copy.task == c.task;
        assert Polls(s.executors[d], c.task) && Enabled(s, Finish(d, true));
      }
    case _ =>
  }

  /** In every reachable state, each call that has not returned and each executor with something to do can step, or waits for a lock. */
  lemma EveryThreadCanStep(n: nat, steps: seq<Step>)
    requires n <= EXECUTOR_CAPACITY && Runs(InitState(n), steps)
    ensures var s := After(InitState(n), steps);
            && (forall k: nat :: k < |s.calls| && !s.calls[k].Returned? ==> CallCanStep(s, k))
            && (forall e: nat :: e < |s.executors| && s.executors[e] != Executor(Receiving, []) ==>
                  ExecutorCanStep(s, e) || WaitsForLock(s, e))
  {
    InitIsExclusive(n);
    RunKeepsExclusive(InitState(n), steps);
    var s := After(InitState(n), steps);
    forall k: nat | k < |s.calls| && !s.calls[k].Returned?
      ensures CallCanStep(s, k)
    {
      CallsCanStep(s, k);
    }
    forall e: nat | e < |s.executors| && s.executors[e] != Executor(Receiving, [])
      ensures ExecutorCanStep(s, e) || WaitsForLock(s, e)
    {
      ExecutorsCanStep(s, e);
    }
  }
}
