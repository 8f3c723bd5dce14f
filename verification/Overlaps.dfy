/**
 How the interleaved calls relate to the uninterrupted ones of `Dispatching`.

 A call that no other step interrupts does what `SubmitCall` or `ReadyCall` says. When a
 submitting call and a reporting executor overlap, each can miss the other: then a task and
 an executor both wait.
 */
module Overlaps {
  import opened Dispatching
  import opened DispatcherSteps
  import opened ExecutorPlaces

  /** The part of the state that the calls of the task manager work on. */
  function View(s: State): Dispatcher {
    Dispatcher(s.waitingTasks, s.waitingExecutors,
               map e: ExecutorId | 0 <= e < |s.executors| :: s.executors[e].channel)
  }

  ghost predicate Reaches(s: State, s': State) {
    exists steps :: Runs(s, steps) && After(s, steps) == s'
  }

  lemma ReachesItself(s: State)
    ensures Reaches(s, s)
  {
    assert Runs(s, []) && After(s, []) == s;
  }

  lemma ReachesByStep(s: State, step: Step, s': State)
    requires Enabled(s, step) && Reaches(Apply(s, step), s')
    ensures Reaches(s, s')
  {
    var rest :| Runs(Apply(s, step), rest) && After(Apply(s, step), rest) == s';
    assert ([step] + rest)[1..] == rest;
    assert Runs(s, [step] + rest) && After(s, [step] + rest) == s';
  }

  // ---------------------------------------------------------------------------
  // Calls that nothing interrupts

  lemma DeliverIsSend(s: State, s': State, e: ExecutorId, c: Copy)
    requires HasRoom(s, e)
    requires s'.waitingTasks == s.waitingTasks && s'.waitingExecutors == s.waitingExecutors
    requires |s'.executors| == |s.executors| && s'.executors[e].channel == s.executors[e].channel + [c]
    requires forall d :: 0 <= d < |s.executors| && d != e ==> s'.executors[d].channel == s.executors[d].channel
    ensures SendTo(View(s), e, c) == (View(s'), Sent(e))
  {
    assert View(s').channels == View(s).channels[e := View(s).channels[e] + [c]];
  }

  /** Submitting: test, pop an executor, then send or push. */
  function SubmitAtOnce(s: State, k: nat): (s': State)
    requires Exclusive(s) && Enabled(s, Check(k))
    ensures Exclusive(s')
  {
    StepKeepsExclusive(s, Check(k));
    var checked := Apply(s, Check(k));
    if checked.calls[k].Returned? then checked
    else
      StepKeepsExclusive(checked, Seek(k));
      var sought := Apply(checked, Seek(k));
      NothingBlocks(sought);
      var last := if sought.calls[k].Claiming? then Send(k) else Queue(k);
      StepKeepsExclusive(sought, last);
      Apply(sought, last)
  }

  /** An uninterrupted submission is `SubmitCall`. */
  lemma SubmitIsSubmitCall(s: State, k: nat)
    requires Exclusive(s) && Enabled(s, Check(k))
    ensures Reaches(s, SubmitAtOnce(s, k))
    ensures SubmitAtOnce(s, k).calls[k].Returned?
    ensures View(SubmitAtOnce(s, k)) == SubmitCall(View(s), s.tasks.aborted, s.calls[k].copy).0
  {
    var s' := SubmitAtOnce(s, k);
    StepKeepsExclusive(s, Check(k));
    var checked := Apply(s, Check(k));
    ReachesItself(s');
    if !checked.calls[k].Returned? {
      StepKeepsExclusive(checked, Seek(k));
      var sought := Apply(checked, Seek(k));
      NothingBlocks(sought);
      if sought.calls[k].Claiming? {
        DeliverIsSend(sought, s', sought.calls[k].executor, sought.calls[k].copy);
        ReachesByStep(sought, Send(k), s');
      } else {
        ReachesByStep(sought, Queue(k), s');
      }
      ReachesByStep(checked, Seek(k), s');
    }
    ReachesByStep(s, Check(k), s');
  }

  /** Reporting: pop tasks until a live one, then forward it, or park. */
  function ReportAtOnce(s: State, e: nat): (s': State)
    requires Exclusive(s) && Enabled(s, PopTask(e))
    ensures Exclusive(s') && |s'.executors| == |s.executors|
    decreases |s.waitingTasks|
  {
    StepKeepsExclusive(s, PopTask(e));
    var popped := Apply(s, PopTask(e));
    if s.waitingTasks == [] then
      NothingBlocks(popped);
      StepKeepsExclusive(popped, Park(e));
      Apply(popped, Park(e))
    else
      StepKeepsExclusive(popped, Inspect(e));
      var inspected := Apply(popped, Inspect(e));
      if inspected.executors[e].phase.Reporting? then ReportAtOnce(inspected, e)
      else
        NothingBlocks(inspected);
        StepKeepsExclusive(inspected, Forward(e));
        Apply(inspected, Forward(e))
  }

  /** A report that finds no task. */
  lemma EmptyReport(s: State, e: nat)
    requires Exclusive(s) && Enabled(s, PopTask(e)) && s.waitingTasks == []
    ensures Reaches(s, ReportAtOnce(s, e))
    ensures ReportAtOnce(s, e).executors[e].phase.Receiving?
    ensures View(ReportAtOnce(s, e)) == ReadyCall(View(s), s.tasks.aborted, e).0
  {
    var s' := ReportAtOnce(s, e);
    StepKeepsExclusive(s, PopTask(e));
    var popped := Apply(s, PopTask(e));
    NothingBlocks(popped);
    ReachesItself(s');
    ReachesByStep(popped, Park(e), s');
    ReachesByStep(s, PopTask(e), s');
    SameChannels(s, s');
  }

  lemma SameChannels(s: State, s': State)
    requires |s'.executors| == |s.executors|
    requires forall e :: 0 <= e < |s.executors| ==> s'.executors[e].channel == s.executors[e].channel
    ensures View(s').channels == View(s).channels
  {
  }

  /** Popping a task and testing it. */
  lemma PopAndInspect(s: State, e: nat)
    requires Exclusive(s) && Enabled(s, PopTask(e)) && s.waitingTasks != []
    ensures var popped := Apply(s, PopTask(e));
            && Enabled(popped, Inspect(e))
            && Exclusive(Apply(popped, Inspect(e)))
            && View(Apply(popped, Inspect(e))) == View(s).(waitingTasks := s.waitingTasks[1..])
            && Apply(popped, Inspect(e)).tasks.aborted == s.tasks.aborted
  {
    StepKeepsExclusive(s, PopTask(e));
    var popped := Apply(s, PopTask(e));
    StepKeepsExclusive(popped, Inspect(e));
    assert View(Apply(popped, Inspect(e))).channels == View(s).channels;
  }

  /** A report that forwards a task. */
  lemma ForwardingReport(s: State, e: nat)
    requires Exclusive(s) && Enabled(s, Forward(e))
    ensures View(Apply(s, Forward(e))) == SendTo(View(s), e, s.executors[e].phase.copy).0
    ensures Apply(s, Forward(e)).executors[e].phase.Receiving?
  {
    DeliverIsSend(s, Apply(s, Forward(e)), e, s.executors[e].phase.copy);
  }

  /** A report whose first task is live. */
  lemma LiveReport(s: State, e: nat)
    requires Exclusive(s) && Enabled(s, Forward(e))
    ensures Reaches(s, Apply(s, Forward(e)))
  {
    ReachesItself(Apply(s, Forward(e)));
    ReachesByStep(s, Forward(e), Apply(s, Forward(e)));
  }

  /** What the first task of the queue is to an uninterrupted report. */
  lemma FirstTaskDecides(s: State, e: nat)
    requires Exclusive(s) && Enabled(s, PopTask(e)) && s.waitingTasks != []
    ensures var inspected := Apply(Apply(s, PopTask(e)), Inspect(e));
            ReadyCall(View(s), s.tasks.aborted, e)
            == if s.waitingTasks[0].task in s.tasks.aborted then ReadyCall(View(inspected), s.tasks.aborted, e)
               else SendTo(View(inspected), e, s.waitingTasks[0])
  {
    PopAndInspect(s, e);
    var rest := View(s).(waitingTasks := s.waitingTasks[1..]);
    assert View(s) == rest.(waitingTasks := [s.waitingTasks[0]] + rest.waitingTasks);
    SkipAborted(rest, s.tasks.aborted, e, s.waitingTasks[0]);
  }

  /** An uninterrupted report is `ReadyCall`. */
  lemma {:induction false} ReportIsReadyCall(s: State, e: nat)
    requires Exclusive(s) && Enabled(s, PopTask(e))
    ensures Reaches(s, ReportAtOnce(s, e))
    ensures ReportAtOnce(s, e).executors[e].phase.Receiving?
    ensures View(ReportAtOnce(s, e)) == ReadyCall(View(s), s.tasks.aborted, e).0
    decreases |s.waitingTasks|
  {
    if s.waitingTasks == [] {
      EmptyReport(s, e);
    } else {
      var s' := ReportAtOnce(s, e);
      var popped := Apply(s, PopTask(e));
      PopAndInspect(s, e);
      FirstTaskDecides(s, e);
      var inspected := Apply(popped, Inspect(e));
      if inspected.executors[e].phase.Reporting? {
        ReportIsReadyCall(inspected, e);
      } else {
        NothingBlocks(inspected);
        ForwardingReport(inspected, e);
        LiveReport(inspected, e);
      }
      ReachesByStep(popped, Inspect(e), s');
      ReachesByStep(s, PopTask(e), s');
    }
  }

  // ---------------------------------------------------------------------------
  // Calls that overlap

  /** A submission has found no executor and not yet queued its task. */
  predicate SomeQueueing(s: State) {
    exists k :: 0 <= k < |s.calls| && s.calls[k].Queueing?
  }

  /** An executor has found no task and not yet queued itself. */
  predicate SomeParking(s: State) {
    exists e :: 0 <= e < |s.executors| && s.executors[e].phase.Parking?
  }

  predicate Overlapping(s: State) {
    SomeQueueing(s) && SomeParking(s)
  }

  /** No state of the run has both. */
  predicate NeverOverlapping(s: State, steps: seq<Step>)
    requires Runs(s, steps)
    decreases |steps|
  {
    !Overlapping(s) && (steps == [] || NeverOverlapping(Apply(s, steps[0]), steps[1..]))
  }

  /** What a search found is still so. */
  predicate FindingsHold(s: State) {
    && WorkConserving(View(s))
    && (SomeQueueing(s) ==> s.waitingExecutors == [])
    && (SomeParking(s) ==> s.waitingTasks == [])
  }

  /** A step strands a task exactly when it pushes to one queue while the other has gained an entry. */
  lemma StrandsIff(s: State, step: Step)
    requires Enabled(s, step) && WorkConserving(View(s))
    ensures !WorkConserving(View(Apply(s, step))) <==>
              || (step.Queue? && |s.waitingTasks| < TASK_CAPACITY && s.waitingExecutors != [])
              || (step.Park? && s.waitingTasks != [])
  {
  }

  /** A call is queueing after a step only if it was before, or has just found no executor. */
  lemma QueueingAfter(s: State, step: Step)
    requires Enabled(s, step) && SomeQueueing(Apply(s, step))
    ensures SomeQueueing(s) || (step.Seek? && s.waitingExecutors == [])
  {
    var s' := Apply(s, step);
    var k :| 0 <= k < |s'.calls| && s'.calls[k].Queueing?;
    assert k < |s.calls| && (s.calls[k] == s'.calls[k] || step == Seek(k));
  }

  lemma ParkingAfter(s: State, step: Step)
    requires Enabled(s, step) && SomeParking(Apply(s, step))
    ensures SomeParking(s) || (step.PopTask? && s.waitingTasks == [])
  {
    var s' := Apply(s, step);
    var e :| 0 <= e < |s'.executors| && s'.executors[e].phase.Parking?;
    assert s.executors[e].phase == s'.executors[e].phase || step == PopTask(e);
  }

  lemma StepKeepsFindings(s: State, step: Step)
    requires FindingsHold(s) && !Overlapping(s) && Enabled(s, step)
    ensures FindingsHold(Apply(s, step))
  {
    var s' := Apply(s, step);
    StrandsIff(s, step);
    if SomeQueueing(s') {
      QueueingAfter(s, step);
    }
    if SomeParking(s') {
      ParkingAfter(s, step);
    }
    match step
    case Queue(k) => assert SomeQueueing(s);
    case Park(e) => assert SomeParking(s);
    case _ => assert s'.waitingTasks == s.waitingTasks || step.PopTask?;
  }

  lemma {:induction false} RunKeepsFindings(s: State, steps: seq<Step>)
    requires FindingsHold(s) && Runs(s, steps) && NeverOverlapping(s, steps)
    ensures FindingsHold(After(s, steps))
    decreases |steps|
  {
    if steps != [] {
      StepKeepsFindings(s, steps[0]);
      RunKeepsFindings(Apply(s, steps[0]), steps[1..]);
    }
  }

  /**
   Work conservation under every interleaving in which no submission that found no executor
   overlaps an executor that found no task: tasks and executors never both wait.
   */
  lemma ConservedWithoutOverlap(n: nat, steps: seq<Step>)
    requires Runs(InitState(n), steps) && NeverOverlapping(InitState(n), steps)
    ensures var s := After(InitState(n), steps); s.waitingTasks == [] || s.waitingExecutors == []
  {
    RunKeepsFindings(InitState(n), steps);
  }

  /** And where two such calls do overlap, letting them finish strands a task. */
  lemma OverlapCanStrand(s: State, k: nat, e: nat)
    requires Exclusive(s) && |s.waitingTasks| < TASK_CAPACITY
    requires k < |s.calls| && s.calls[k].Queueing? && e < |s.executors| && s.executors[e].phase.Parking?
    ensures Runs(s, [Queue(k), Park(e)])
    ensures var s' := After(s, [Queue(k), Park(e)]);
            s'.waitingTasks != [] && s'.waitingExecutors != [] && !WorkConserving(View(s'))
  {
    var s1 := Apply(s, Queue(k));
    StepKeepsExclusive(s, Queue(k));
    NothingBlocks(s1);
    var s2 := Apply(s1, Park(e));
    assert [Queue(k), Park(e)][1..] == [Park(e)] && [Park(e)][1..] == [];
    assert Runs(s2, []) && After(s2, []) == s2;
    assert Runs(s1, [Park(e)]) && After(s1, [Park(e)]) == s2;
  }

  /** In every reachable state: two further steps can strand a task if calls overlap and the queue has room. */
  lemma ReachableOverlapCanStrand(n: nat, steps: seq<Step>)
    requires n <= EXECUTOR_CAPACITY && Runs(InitState(n), steps)
    requires Overlapping(After(InitState(n), steps)) && |After(InitState(n), steps).waitingTasks| < TASK_CAPACITY
    ensures var s := After(InitState(n), steps);
            exists k, e :: Runs(s, [Queue(k), Park(e)]) && !WorkConserving(View(After(s, [Queue(k), Park(e)])))
  {
    InitIsExclusive(n);
    RunKeepsExclusive(InitState(n), steps);
    var s := After(InitState(n), steps);
    var k :| 0 <= k < |s.calls| && s.calls[k].Queueing?;
    var e :| 0 <= e < |s.executors| && s.executors[e].phase.Parking?;
    OverlapCanStrand(s, k, e);
  }

  // ---------------------------------------------------------------------------
  // What survives overlap: the queue of tasks is first in, first out

  function Pops(steps: seq<Step>): nat {
    if steps == [] then 0 else (if steps[0].PopTask? then 1 else 0) + Pops(steps[1..])
  }

  /** In the run, an executor pops the copy from the queue. */
  predicate PoppedIn(s: State, steps: seq<Step>, c: Copy)
    requires Runs(s, steps)
    decreases |steps|
  {
    steps != [] &&
    (|| (steps[0].PopTask? && s.waitingTasks != [] && s.waitingTasks[0] == c)
     || PoppedIn(Apply(s, steps[0]), steps[1..], c))
  }

  /** Under every interleaving, the copy at place `k` is popped by the `k + 1`-st pop at the latest. */
  lemma {:induction false} PoppedInTurn(s: State, steps: seq<Step>, k: nat)
    requires Runs(s, steps) && k < |s.waitingTasks| && Pops(steps) > k
    ensures PoppedIn(s, steps, s.waitingTasks[k])
    decreases |steps|
  {
    var s' := Apply(s, steps[0]);
    if steps[0].PopTask? {
      if k > 0 {
        assert s'.waitingTasks == s.waitingTasks[1..];
        PoppedInTurn(s', steps[1..], k - 1);
      }
    } else {
      assert s'.waitingTasks[..k + 1] == s.waitingTasks[..k + 1];
      assert s'.waitingTasks[k] == s.waitingTasks[..k + 1][k];
      PoppedInTurn(s', steps[1..], k);
    }
  }

  // ---------------------------------------------------------------------------
  // A run that strands a task

  /** One executor, at the end of the turn of task 1. */
  function Reporting1(): State {
    State([Returned], [Executor(Reporting, [])], [], [],
          Tasks({1}, {}, {1}, multiset{}, multiset{}),
          Log([Copy(1, 0)], multiset{}, multiset{Copy(1, 0)}, multiset{}, [Began(1), Completed(1)]))
  }

  /** The executor has received task 1. */
  function Received1(): State {
    State([Returned], [Executor(Received(Copy(1, 0)), [])], [], [],
          Tasks({1}, {}, {}, multiset{1}, multiset{}),
          Log([Copy(1, 0)], multiset{}, multiset{}, multiset{}, []))
  }

  /** Task 1 is spawned and found live; executor 0 waits. */
  function Seeking1(): State {
    Received1().(calls := [Seeking(Copy(1, 0))], executors := [Executor(Receiving, [])], waitingExecutors := [0])
  }

  lemma TaskIsSpawned(s: State)
    requires Reaches(Seeking1(), s)
    ensures Reaches(InitState(1), s)
  {
    var s0 := InitState(1);
    var s1 := Apply(s0, Spawn(1));
    assert s1.executors == [Executor(Receiving, [])] && s1.waitingExecutors == [0];
    assert s1.tasks.strong == multiset{1} && s1.tasks.spawned == {1};
    assert Apply(s1, Check(0)) == Seeking1();
    ReachesByStep(s1, Check(0), s);
    ReachesByStep(s0, Spawn(1), s);
  }

  lemma TaskIsReceived(s: State)
    requires Reaches(Received1(), s)
    ensures Reaches(Seeking1(), s)
  {
    var c := Copy(1, 0);
    var s1 := Received1().(calls := [Claiming(c, 0)], executors := [Executor(Receiving, [])]);
    var s2 := Received1().(executors := [Executor(Receiving, [c])]);
    assert Apply(s2, Receive(0)) == Received1() by {
      assert [c][1..] == [];
    }
    ReachesByStep(s2, Receive(0), s);
    assert Apply(s1, Send(0)) == s2 by {
      assert s1.calls[0 := Returned] == [Returned] && [] + [c] == [c];
    }
    ReachesByStep(s1, Send(0), s);
    assert Apply(Seeking1(), Seek(0)) == s1;
    ReachesByStep(Seeking1(), Seek(0), s);
  }

  /** The executor has polled task 1 to completion. */
  function Polled1(): State {
    State([Returned], [Executor(Polled(Copy(1, 0)), [])], [], [],
          Tasks({1}, {}, {1}, multiset{1, 1}, multiset{}),
          Log([Copy(1, 0)], multiset{}, multiset{}, multiset{}, [Began(1), Completed(1)]))
  }

  function Polling1(): State {
    Polled1().(executors := [Executor(Polling(Copy(1, 0)), [])], tasks := Tasks({1}, {}, {}, multiset{1, 1}, multiset{}),
               log := Received1().log.(polls := [Began(1)]))
  }

  lemma PollEnds(s: State)
    requires Reaches(Polled1(), s)
    ensures Reaches(Polling1(), s)
  {
    assert Apply(Polling1(), Finish(0, true)) == Polled1();
    ReachesByStep(Polling1(), Finish(0, true), s);
  }

  lemma TaskIsPolled(s: State)
    requires Reaches(Polled1(), s)
    ensures Reaches(Received1(), s)
  {
    var s1 := Polling1();
    assert [] + [Began(1)] == [Began(1)] && multiset{1} + multiset{1} == multiset{1, 1};
    assert Apply(Received1(), Lock(0)) == s1;
    PollEnds(s);
    ReachesByStep(Received1(), Lock(0), s);
  }

  function Releasing1(): State {
    Polled1().(executors := [Executor(Releasing(Copy(1, 0)), [])], tasks := Tasks({1}, {}, {1}, multiset{1}, multiset{}))
  }

  lemma ContextIsDropped(s: State)
    requires Reaches(Reporting1(), s)
    ensures Reaches(Releasing1(), s)
  {
    assert Apply(Releasing1(), Release(0)) == Reporting1();
    ReachesByStep(Releasing1(), Release(0), s);
  }

  lemma TurnIsOver(s: State)
    requires Reaches(Reporting1(), s)
    ensures Reaches(Polled1(), s)
  {
    assert multiset{1, 1} - multiset{1} == multiset{1};
    assert Apply(Polled1(), DropContext(0)) == Releasing1();
    ContextIsDropped(s);
    ReachesByStep(Polled1(), DropContext(0), s);
  }

  /** The executor parks, and task 2 is spawned and finds no executor. */
  function Overlapping2(): State {
    var s := Reporting1();
    var c := Copy(2, 1);
    s.(calls := [Returned, Queueing(c)], executors := [Executor(Parking, [])],
       tasks := s.tasks.(spawned := {1, 2}, strong := multiset{2}),
       log := s.log.(submitted := [Copy(1, 0), c]))
  }

  function Spawned2(): State {
    Overlapping2().(calls := [Returned, Checking(Copy(2, 1))])
  }

  lemma NoExecutorIsFound(s: State)
    requires Reaches(Overlapping2(), s)
    ensures Reaches(Spawned2(), s)
  {
    var s1 := Apply(Spawned2(), Check(1));
    assert s1 == Overlapping2().(calls := [Returned, Seeking(Copy(2, 1))]);
    assert Apply(s1, Seek(1)) == Overlapping2();
    ReachesByStep(s1, Seek(1), s);
    ReachesByStep(Spawned2(), Check(1), s);
  }

  lemma CallsOverlap(s: State)
    requires Reaches(Overlapping2(), s)
    ensures Reaches(Reporting1(), s)
  {
    NoExecutorIsFound(s);
    var s0 := Reporting1();
    var s1 := Apply(s0, PopTask(0));
    assert s1 == s0.(executors := [Executor(Parking, [])]);
    assert Apply(s1, Spawn(2)) == Spawned2();
    ReachesByStep(s1, Spawn(2), s);
    ReachesByStep(s0, PopTask(0), s);
  }

  /**
   A run that strands a task: the only executor has found no task; then task 2 is spawned,
   finds no executor, and both wait.
   */
  lemma OverlapStrands()
    ensures exists s :: Reaches(InitState(1), s) && s.waitingTasks != [] && s.waitingExecutors != []
  {
    var s5 := Apply(Overlapping2(), Queue(1));
    var s := Apply(s5, Park(0));
    ReachesItself(s);
    ReachesByStep(s5, Park(0), s);
    ReachesByStep(Overlapping2(), Queue(1), s);
    CallsOverlap(s);
    TurnIsOver(s);
    TaskIsPolled(s);
    TaskIsReceived(s);
    TaskIsSpawned(s);
  }
}
