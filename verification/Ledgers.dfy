/**
 What the steps of the dispatcher conserve: copies of tasks and references to tasks.
 Both balances, and the bound on polls after an abort, are sums over all places where a
 task can be. `Census` is such a sum for any way of counting.
 */
module Ledgers {
  import opened Dispatching
  import opened DispatcherSteps

  /** What is counted: a copy; references to a task; copies of a task that will still be polled after an abort. */
  datatype Measure = OfCopy(copy: Copy) | References(task: TaskId) | Committed(task: TaskId)

  function One(b: bool): nat {
    if b then 1 else 0
  }

  predicate Holding(phase: Phase) {
    !phase.Receiving? && !phase.Reporting? && !phase.Parking?
  }

  function OfQueued(m: Measure, c: Copy): nat {
    match m
    case OfCopy(x) => One(c == x)
    case References(t) => One(c.task == t)
    case Committed(t) => 0
  }

  function OfCall(m: Measure, call: Call): nat {
    match m
    case OfCopy(x) => One(!call.Returned? && call.copy == x)
    case References(t) => One(!call.Returned? && call.copy.task == t)
    case Committed(t) => One((call.Seeking? || call.Claiming?) && call.copy.task == t)
  }

  function OfChannel(m: Measure, channel: seq<Copy>): nat {
    if channel == [] then 0
    else (match m
          case OfCopy(x) => One(channel[0] == x)
          case References(t) => One(channel[0].task == t)
          case Committed(t) => One(channel[0].task == t))
         + OfChannel(m, channel[1..])
  }

  function OfPhase(m: Measure, phase: Phase): nat {
    match m
    case OfCopy(x) => One(Holding(phase) && phase.copy == x)
    case References(t) =>
      One(Holding(phase) && phase.copy.task == t) + One((phase.Polling? || phase.Polled?) && phase.copy.task == t)
    case Committed(t) => One((phase.Received? || phase.Forwarding?) && phase.copy.task == t)
  }

  function OfExecutor(m: Measure, x: Executor): nat {
    OfChannel(m, x.channel) + OfPhase(m, x.phase)
  }

  function CallSum(m: Measure, calls: seq<Call>): nat {
    if calls == [] then 0 else OfCall(m, calls[0]) + CallSum(m, calls[1..])
  }

  function QueueSum(m: Measure, queue: seq<Copy>): nat {
    if queue == [] then 0 else OfQueued(m, queue[0]) + QueueSum(m, queue[1..])
  }

  function ExecutorSum(m: Measure, executors: seq<Executor>): nat {
    if executors == [] then 0 else OfExecutor(m, executors[0]) + ExecutorSum(m, executors[1..])
  }

  /** The sum over all places. */
  function Census(s: State, m: Measure): nat {
    CallSum(m, s.calls) + QueueSum(m, s.waitingTasks) + ExecutorSum(m, s.executors)
  }

  lemma {:induction false} CallSumUpdate(m: Measure, calls: seq<Call>, k: nat, call: Call)
    requires k < |calls|
    ensures CallSum(m, calls[k := call]) + OfCall(m, calls[k]) == CallSum(m, calls) + OfCall(m, call)
  {
    if k > 0 {
      CallSumUpdate(m, calls[1..], k - 1, call);
      assert calls[k := call][1..] == calls[1..][k - 1 := call];
    }
  }

  lemma {:induction false} CallSumAppend(m: Measure, calls: seq<Call>, call: Call)
    ensures CallSum(m, calls + [call]) == CallSum(m, calls) + OfCall(m, call)
  {
    if calls == [] {
      assert [call][1..] == [];
    } else {
      CallSumAppend(m, calls[1..], call);
      assert (calls + [call])[1..] == calls[1..] + [call];
    }
  }

  lemma {:induction false} QueueSumAppend(m: Measure, queue: seq<Copy>, c: Copy)
    ensures QueueSum(m, queue + [c]) == QueueSum(m, queue) + OfQueued(m, c)
  {
    if queue == [] {
      assert [c][1..] == [];
    } else {
      QueueSumAppend(m, queue[1..], c);
      assert (queue + [c])[1..] == queue[1..] + [c];
    }
  }

  lemma {:induction false} ChannelAppend(m: Measure, channel: seq<Copy>, c: Copy)
    ensures OfChannel(m, channel + [c]) == OfChannel(m, channel) + OfChannel(m, [c])
  {
    if channel == [] {
      assert [] + [c] == [c];
    } else {
      ChannelAppend(m, channel[1..], c);
      assert (channel + [c])[1..] == channel[1..] + [c];
    }
  }

  lemma {:induction false} ExecutorSumUpdate(m: Measure, executors: seq<Executor>, e: nat, x: Executor)
    requires e < |executors|
    ensures ExecutorSum(m, executors[e := x]) + OfExecutor(m, executors[e]) == ExecutorSum(m, executors) + OfExecutor(m, x)
    ensures OfExecutor(m, executors[e]) <= ExecutorSum(m, executors)
  {
    if e > 0 {
      ExecutorSumUpdate(m, executors[1..], e - 1, x);
      assert executors[e := x][1..] == executors[1..][e - 1 := x];
    }
  }

  // How the census moves when one entry of a table changes.

  lemma CensusOfCalls(s: State, s': State, m: Measure, k: nat)
    requires k < |s'.calls| && s'.waitingTasks == s.waitingTasks && s'.executors == s.executors
    requires s'.calls == s.calls + [s'.calls[k]] || (k < |s.calls| && s'.calls == s.calls[k := s'.calls[k]])
    ensures Census(s', m) + (if |s.calls| == |s'.calls| then OfCall(m, s.calls[k]) else 0)
         == Census(s, m) + OfCall(m, s'.calls[k])
  {
    if |s.calls| == |s'.calls| {
      CallSumUpdate(m, s.calls, k, s'.calls[k]);
    } else {
      CallSumAppend(m, s.calls, s'.calls[k]);
    }
  }

  lemma CensusOfExecutor(s: State, s': State, m: Measure, e: nat)
    requires e < |s.executors| && |s.executors| == |s'.executors|
    requires s'.waitingTasks == s.waitingTasks && s'.calls == s.calls
    requires s'.executors == s.executors[e := s'.executors[e]]
    ensures Census(s', m) + OfExecutor(m, s.executors[e]) == Census(s, m) + OfExecutor(m, s'.executors[e])
  {
    ExecutorSumUpdate(m, s.executors, e, s'.executors[e]);
  }

  lemma CensusOfQueue(s: State, s': State, m: Measure)
    requires s'.calls == s.calls && s'.executors == s.executors
    ensures s.waitingTasks != [] && s'.waitingTasks == s.waitingTasks[1..] ==>
              Census(s', m) + OfQueued(m, s.waitingTasks[0]) == Census(s, m)
    ensures s'.waitingTasks != [] && s'.waitingTasks == s.waitingTasks + [s'.waitingTasks[|s'.waitingTasks| - 1]] ==>
              Census(s', m) == Census(s, m) + OfQueued(m, s'.waitingTasks[|s'.waitingTasks| - 1])
  {
    if s'.waitingTasks != [] {
      QueueSumAppend(m, s.waitingTasks, s'.waitingTasks[|s'.waitingTasks| - 1]);
    }
  }

  /** The executor that a step concerns, or the number of executors if there is none. */
  function Concerns(s: State, step: Step): nat
    requires Enabled(s, step)
  {
    match step
    case Send(k) => s.calls[k].executor
    case Receive(e) => e
    case Lock(e) => e
    case Finish(e, _) => e
    case DropContext(e) => e
    case Release(e) => e
    case PopTask(e) => e
    case Inspect(e) => e
    case Forward(e) => e
    case Park(e) => e
    case _ => |s.executors|
  }

  /** The call that a step concerns: an entry of the table, a new one, or none. */
  function ConcernsCall(s: State, step: Step): nat
    requires Enabled(s, step)
  {
    match step
    case Spawn(t) => |s.calls|
    case Wake(t) => |s.calls|
    case WakeByRef(t) => |s.calls|
    case Check(k) => k
    case Seek(k) => k
    case Send(k) => k
    case Queue(k) => k
    case _ => |s.calls| + 1
  }

  /** The difference that a step makes: what it replaces, and by what. */
  ghost function Before(s: State, step: Step, m: Measure): nat
    requires Enabled(s, step)
  {
    var (k, e) := (ConcernsCall(s, step), Concerns(s, step));
    (if k < |s.calls| then OfCall(m, s.calls[k]) else 0)
    + (if e < |s.executors| then OfExecutor(m, s.executors[e]) else 0)
    + (if step.PopTask? && s.waitingTasks != [] then OfQueued(m, s.waitingTasks[0]) else 0)
  }

  ghost function Behind(s: State, step: Step, m: Measure): nat
    requires Enabled(s, step)
  {
    var s' := Apply(s, step);
    var (k, e) := (ConcernsCall(s, step), Concerns(s, step));
    (if k < |s'.calls| then OfCall(m, s'.calls[k]) else 0)
    + (if e < |s.executors| then OfExecutor(m, s'.executors[e]) else 0)
    + (if step.Queue? && |s.waitingTasks| < TASK_CAPACITY then OfQueued(m, s.calls[step.call].copy) else 0)
  }

  lemma CallStepBalances(s: State, step: Step, m: Measure)
    requires Enabled(s, step) && Concerns(s, step) == |s.executors| && !step.Queue?
    ensures Census(Apply(s, step), m) + Before(s, step, m) == Census(s, m) + Behind(s, step, m)
  {
    var s' := Apply(s, step);
    assert s'.executors == s.executors && s'.waitingTasks == s.waitingTasks;
    var k := ConcernsCall(s, step);
    if k <= |s.calls| {
      CensusOfCalls(s, s', m, k);
    } else {
      assert s'.calls == s.calls;
    }
  }

  lemma QueueBalances(s: State, k: nat, m: Measure)
    requires Enabled(s, Queue(k))
    ensures Census(Apply(s, Queue(k)), m) + Before(s, Queue(k), m) == Census(s, m) + Behind(s, Queue(k), m)
  {
    var s1 := SetCall(s, k, Returned);
    CensusOfCalls(s, s1, m, k);
    var s' := Apply(s, Queue(k));
    if |s.waitingTasks| < TASK_CAPACITY {
      CensusOfQueue(s1, s', m);
    }
  }

  lemma SendBalances(s: State, k: nat, m: Measure)
    requires Enabled(s, Send(k))
    ensures Census(Apply(s, Send(k)), m) + Before(s, Send(k), m) == Census(s, m) + Behind(s, Send(k), m)
  {
    var s1 := SetCall(s, k, Returned);
    CensusOfCalls(s, s1, m, k);
    CensusOfExecutor(s1, Apply(s, Send(k)), m, s.calls[k].executor);
  }

  lemma PopTaskBalances(s: State, e: nat, m: Measure)
    requires Enabled(s, PopTask(e))
    ensures Census(Apply(s, PopTask(e)), m) + Before(s, PopTask(e), m) == Census(s, m) + Behind(s, PopTask(e), m)
  {
    var s' := Apply(s, PopTask(e));
    var s1 := s.(waitingTasks := s'.waitingTasks);
    CensusOfQueue(s, s1, m);
    CensusOfExecutor(s1, s', m, e);
  }

  lemma PhaseStepBalances(s: State, step: Step, m: Measure)
    requires Enabled(s, step) && Concerns(s, step) < |s.executors| && !step.Send? && !step.PopTask?
    ensures Census(Apply(s, step), m) + Before(s, step, m) == Census(s, m) + Behind(s, step, m)
  {
    var s' := Apply(s, step);
    assert s'.calls == s.calls && s'.waitingTasks == s.waitingTasks;
    CensusOfExecutor(s, s', m, Concerns(s, step));
  }

  /** Whatever is counted, a step changes the census by what it replaces. */
  lemma StepBalances(s: State, step: Step, m: Measure)
    requires Enabled(s, step)
    ensures Census(Apply(s, step), m) + Before(s, step, m) == Census(s, m) + Behind(s, step, m)
  {
    match step
    case Queue(k) => QueueBalances(s, k, m);
    case Send(k) =>  SendBalances(s, k, m);
    case PopTask(e) => PopTaskBalances(s, e, m);
    case _ =>
      if Concerns(s, step) < |s.executors| {
        PhaseStepBalances(s, step, m);
      } else {
        CallStepBalances(s, step, m);
      }
  }

  // ---------------------------------------------------------------------------
  // Copies

  /** How often a copy is on its way: in calls, in the queue, in channels, in executors. */
  function InFlight(s: State, c: Copy): nat {
    Census(s, OfCopy(c))
  }

  /** Where copies end. */
  function Ended(s: State, c: Copy): nat {
    s.log.finished[c] + s.log.dropped[c] + s.log.refused[c]
  }

  /** Every submission of a copy is in flight, at the end of its turn, dropped, or refused. */
  ghost predicate Balanced(s: State, c: Copy) {
    multiset(s.log.submitted)[c] == InFlight(s, c) + Ended(s, c)
  }

  /** The step's difference in the census is its difference in the histories. */
  ghost predicate CopiesAgree(s: State, step: Step, c: Copy)
    requires Enabled(s, step)
  {
    var s' := Apply(s, step);
    multiset(s'.log.submitted)[c] + Before(s, step, OfCopy(c)) + Ended(s, c)
    == multiset(s.log.submitted)[c] + Behind(s, step, OfCopy(c)) + Ended(s', c)
  }

  lemma CopiesAgreeInCalls(s: State, step: Step, c: Copy)
    requires Enabled(s, step) && (step.Check? || step.Seek? || step.Queue?)
    ensures CopiesAgree(s, step, c)
  {
  }

  lemma CopiesAgreeInWakes(s: State, step: Step, c: Copy)
    requires Enabled(s, step) && Concerns(s, step) == |s.executors| && !(step.Check? || step.Seek? || step.Queue?)
    ensures CopiesAgree(s, step, c)
  {
  }

  lemma CopiesAgreeInSends(s: State, k: nat, c: Copy)
    requires Enabled(s, Send(k))
    ensures CopiesAgree(s, Send(k), c)
  {
    ChannelAppend(OfCopy(c), s.executors[s.calls[k].executor].channel, s.calls[k].copy);
  }

  lemma CopiesAgreeInTransfers(s: State, step: Step, c: Copy)
    requires Enabled(s, step) && (step.Receive? || step.Forward? || step.PopTask?)
    ensures CopiesAgree(s, step, c)
  {
    if step.Forward? {
      ChannelAppend(OfCopy(c), s.executors[step.executor].channel, s.executors[step.executor].phase.copy);
    }
  }

  lemma CopiesAgreeInLock(s: State, e: nat, c: Copy)
    requires Enabled(s, Lock(e))
    ensures CopiesAgree(s, Lock(e), c)
  {
  }

  lemma CopiesAgreeInFinish(s: State, e: nat, ready: bool, c: Copy)
    requires Enabled(s, Finish(e, ready))
    ensures CopiesAgree(s, Finish(e, ready), c)
  {
  }

  lemma CopiesAgreeInDrops(s: State, e: nat, c: Copy)
    requires Enabled(s, DropContext(e))
    ensures CopiesAgree(s, DropContext(e), c)
  {
  }

  lemma CopiesAgreeInReports(s: State, step: Step, c: Copy)
    requires Enabled(s, step) && (step.Release? || step.Inspect? || step.Park?)
    ensures CopiesAgree(s, step, c)
  {
  }

  lemma StepKeepsBalance(s: State, step: Step, c: Copy)
    requires Balanced(s, c) && Enabled(s, step)
    ensures Balanced(Apply(s, step), c)
  {
    StepBalances(s, step, OfCopy(c));
    if step.Check? || step.Seek? || step.Queue? {
      CopiesAgreeInCalls(s, step, c);
    } else if Concerns(s, step) == |s.executors| {
      CopiesAgreeInWakes(s, step, c);
    } else if step.Send? {
      CopiesAgreeInSends(s, step.call, c);
    } else if step.Receive? || step.Forward? || step.PopTask? {
      CopiesAgreeInTransfers(s, step, c);
    } else if step.Lock? {
      CopiesAgreeInLock(s, step.executor, c);
    } else if step.Finish? {
      CopiesAgreeInFinish(s, step.executor, step.ready, c);
    } else if step.DropContext? {
      CopiesAgreeInDrops(s, step.executor, c);
    } else {
      CopiesAgreeInReports(s, step, c);
    }
  }

  // ---------------------------------------------------------------------------
  // References

  /** A task has one reference for each waker, each copy on its way, and each context of a poll. */
  ghost predicate Counted(s: State, t: TaskId) {
    s.tasks.strong[t] == s.tasks.wakers[t] + Census(s, References(t))
  }

  /** A task that is referred to is alive: a waker, a copy or a context keeps its count above zero. */
  lemma NoReferenceToFreedTask(s: State, t: TaskId)
    requires Counted(s, t)
    ensures HasWaker(s, t) ==> s.tasks.strong[t] > 0
    ensures forall k :: 0 <= k < |s.calls| && !s.calls[k].Returned? && s.calls[k].copy.task == t ==> s.tasks.strong[t] > 0
    ensures forall e :: 0 <= e < |s.executors| && Holding(s.executors[e].phase) && s.executors[e].phase.copy.task == t ==>
              s.tasks.strong[t] > 0
  {
    forall k | 0 <= k < |s.calls| && !s.calls[k].Returned? && s.calls[k].copy.task == t
      ensures s.tasks.strong[t] > 0
    {
      CallSumUpdate(References(t), s.calls, k, Returned);
    }
    forall e | 0 <= e < |s.executors| && Holding(s.executors[e].phase) && s.executors[e].phase.copy.task == t
      ensures s.tasks.strong[t] > 0
    {
      ExecutorSumUpdate(References(t), s.executors, e, s.executors[e]);
    }
  }

  /** The task whose reference the step may drop still has one. */
  predicate Alive(s: State, step: Step, t: TaskId)
    requires Enabled(s, step)
  {
    var k := ConcernsCall(s, step);
    var e := Concerns(s, step);
    && (step.DropWaker? && step.task == t ==> s.tasks.strong[t] > 0)
    && (k < |s.calls| && s.calls[k].copy.task == t ==> s.tasks.strong[t] > 0)
    && (e < |s.executors| && Holding(s.executors[e].phase) && s.executors[e].phase.copy.task == t ==> s.tasks.strong[t] > 0)
  }

  lemma CountedIsAlive(s: State, step: Step, t: TaskId)
    requires Counted(s, t) && Enabled(s, step)
    ensures Alive(s, step, t)
  {
    NoReferenceToFreedTask(s, t);
  }

  /** The step's difference in the census is its difference in the counts. */
  ghost predicate ReferencesAgree(s: State, step: Step, t: TaskId)
    requires Enabled(s, step)
  {
    var s' := Apply(s, step);
    s'.tasks.strong[t] + Before(s, step, References(t)) + s.tasks.wakers[t]
    == s.tasks.strong[t] + Behind(s, step, References(t)) + s'.tasks.wakers[t]
  }

  lemma ReferencesAgreeInCalls(s: State, step: Step, t: TaskId)
    requires Enabled(s, step) && Alive(s, step, t) && (step.Check? || step.Seek? || step.Queue?)
    ensures ReferencesAgree(s, step, t)
  {
  }

  lemma ReferencesAgreeInWakes(s: State, step: Step, t: TaskId)
    requires Enabled(s, step) && Alive(s, step, t) && Concerns(s, step) == |s.executors| && !(step.Check? || step.Seek? || step.Queue?)
    ensures ReferencesAgree(s, step, t)
  {
  }

  lemma ReferencesAgreeInSends(s: State, k: nat, t: TaskId)
    requires Enabled(s, Send(k))
    ensures ReferencesAgree(s, Send(k), t)
  {
    ChannelAppend(References(t), s.executors[s.calls[k].executor].channel, s.calls[k].copy);
  }

  lemma ReferencesAgreeInTransfers(s: State, step: Step, t: TaskId)
    requires Enabled(s, step) && (step.Receive? || step.Forward? || step.PopTask?)
    ensures ReferencesAgree(s, step, t)
  {
    if step.Forward? {
      ChannelAppend(References(t), s.executors[step.executor].channel, s.executors[step.executor].phase.copy);
    }
  }

  lemma ReferencesAgreeInPolls(s: State, step: Step, t: TaskId)
    requires Enabled(s, step) && Alive(s, step, t) && (step.Lock? || step.Finish?)
    ensures ReferencesAgree(s, step, t)
  {
  }

  lemma ReferencesAgreeInReleases(s: State, step: Step, t: TaskId)
    requires Enabled(s, step) && Alive(s, step, t) && (step.DropContext? || step.Release?)
    ensures ReferencesAgree(s, step, t)
  {
  }

  lemma ReferencesAgreeInInspect(s: State, e: nat, t: TaskId)
    requires Enabled(s, Inspect(e)) && Alive(s, Inspect(e), t)
    ensures ReferencesAgree(s, Inspect(e), t)
  {
    var m := References(t);
    var s' := Apply(s, Inspect(e));
    var c := s.executors[e].phase.copy;
    assert OfPhase(m, s.executors[e].phase) == One(c.task == t);
    if c.task in s.tasks.aborted {
      assert s'.executors[e] == s.executors[e].(phase := Reporting) && OfPhase(m, Reporting) == 0;
      assert s'.tasks.strong == s.tasks.strong - multiset{c.task};
    } else {
      assert s'.executors[e] == s.executors[e].(phase := Forwarding(c)) && OfPhase(m, Forwarding(c)) == One(c.task == t);
      assert s'.tasks == s.tasks;
    }
  }

  lemma ReferencesAgreeInPark(s: State, e: nat, t: TaskId)
    requires Enabled(s, Park(e))
    ensures ReferencesAgree(s, Park(e), t)
  {
  }

  lemma StepKeepsCount(s: State, step: Step, t: TaskId)
    requires Counted(s, t) && Enabled(s, step)
    ensures Counted(Apply(s, step), t)
  {
    StepBalances(s, step, References(t));
    CountedIsAlive(s, step, t);
    if step.Check? || step.Seek? || step.Queue? {
      ReferencesAgreeInCalls(s, step, t);
    } else if Concerns(s, step) == |s.executors| {
      ReferencesAgreeInWakes(s, step, t);
    } else if step.Send? {
      ReferencesAgreeInSends(s, step.call, t);
    } else if step.Receive? || step.Forward? || step.PopTask? {
      ReferencesAgreeInTransfers(s, step, t);
    } else if step.Lock? || step.Finish? {
      ReferencesAgreeInPolls(s, step, t);
    } else if step.DropContext? || step.Release? {
      ReferencesAgreeInReleases(s, step, t);
    } else if step.Inspect? {
      ReferencesAgreeInInspect(s, step.executor, t);
    } else {
      ReferencesAgreeInPark(s, step.executor, t);
    }
  }

  // ---------------------------------------------------------------------------
  // After an abort

  /** The times the task's future was polled. */
  function PollsBegun(s: State, t: TaskId): nat {
    multiset(s.log.polls)[Began(t)]
  }

  /** Copies past the last test for an abort: each may still be polled once. */
  function CommittedCopies(s: State, t: TaskId): nat {
    Census(s, Committed(t))
  }

  ghost predicate CommitsAgree(s: State, step: Step, t: TaskId)
    requires Enabled(s, step)
  {
    PollsBegun(Apply(s, step), t) + Behind(s, step, Committed(t)) <= PollsBegun(s, t) + Before(s, step, Committed(t))
  }

  lemma CommitsAgreeInCalls(s: State, step: Step, t: TaskId)
    requires Enabled(s, step) && t in s.tasks.aborted && Concerns(s, step) == |s.executors|
    ensures CommitsAgree(s, step, t)
  {
  }

  lemma CommitsAgreeInTransfers(s: State, step: Step, t: TaskId)
    requires Enabled(s, step)
    requires step.Send? || step.Receive? || step.Forward? || step.PopTask?
    ensures CommitsAgree(s, step, t)
  {
    if step.Send? {
      ChannelAppend(Committed(t), s.executors[s.calls[step.call].executor].channel, s.calls[step.call].copy);
    } else if step.Forward? {
      ChannelAppend(Committed(t), s.executors[step.executor].channel, s.executors[step.executor].phase.copy);
    }
  }

  lemma CommitsAgreeInLock(s: State, e: nat, t: TaskId)
    requires Enabled(s, Lock(e))
    ensures CommitsAgree(s, Lock(e), t)
  {
  }

  lemma CommitsAgreeInFinish(s: State, e: nat, ready: bool, t: TaskId)
    requires Enabled(s, Finish(e, ready))
    ensures CommitsAgree(s, Finish(e, ready), t)
  {
  }

  lemma CommitsAgreeInReleases(s: State, step: Step, t: TaskId)
    requires Enabled(s, step) && (step.DropContext? || step.Release?)
    ensures CommitsAgree(s, step, t)
  {
  }

  lemma CommitsAgreeInReports(s: State, step: Step, t: TaskId)
    requires Enabled(s, step) && t in s.tasks.aborted && (step.Inspect? || step.Park?)
    ensures CommitsAgree(s, step, t)
  {
  }

  lemma AbortedStep(s: State, step: Step, t: TaskId)
    requires Enabled(s, step) && t in s.tasks.aborted
    ensures t in Apply(s, step).tasks.aborted
    ensures PollsBegun(Apply(s, step), t) + CommittedCopies(Apply(s, step), t) <= PollsBegun(s, t) + CommittedCopies(s, t)
  {
    StepBalances(s, step, Committed(t));
    if Concerns(s, step) == |s.executors| {
      CommitsAgreeInCalls(s, step, t);
    } else if step.Send? || step.Receive? || step.Forward? || step.PopTask? {
      CommitsAgreeInTransfers(s, step, t);
    } else if step.Lock? {
      CommitsAgreeInLock(s, step.executor, t);
    } else if step.Finish? {
      CommitsAgreeInFinish(s, step.executor, step.ready, t);
    } else if step.DropContext? || step.Release? {
      CommitsAgreeInReleases(s, step, t);
    } else {
      CommitsAgreeInReports(s, step, t);
    }
  }

  /** After an abort, whatever wakes follow, the task is polled at most once for each copy then committed. */
  lemma {:induction false} PollsAfterAbort(s: State, steps: seq<Step>, t: TaskId)
    requires Runs(s, steps) && t in s.tasks.aborted
    ensures PollsBegun(After(s, steps), t) + CommittedCopies(After(s, steps), t) <= PollsBegun(s, t) + CommittedCopies(s, t)
    decreases |steps|
  {
    if steps != [] {
      AbortedStep(s, steps[0], t);
      PollsAfterAbort(Apply(s, steps[0]), steps[1..], t);
    }
  }

  // ---------------------------------------------------------------------------
  // Over every run

  lemma {:induction false} NothingYet(n: nat, m: Measure)
    ensures ExecutorSum(m, seq(n, i => Executor(Receiving, []))) == 0
  {
    if n > 0 {
      NothingYet(n - 1, m);
      assert seq(n, i => Executor(Receiving, []))[1..] == seq(n - 1, i => Executor(Receiving, []));
    }
  }

  lemma {:induction false} RunKeepsLedgers(s: State, steps: seq<Step>, c: Copy, t: TaskId)
    requires Runs(s, steps) && Balanced(s, c) && Counted(s, t)
    ensures Balanced(After(s, steps), c) && Counted(After(s, steps), t)
    decreases |steps|
  {
    if steps != [] {
      StepKeepsBalance(s, steps[0], c);
      StepKeepsCount(s, steps[0], t);
      RunKeepsLedgers(Apply(s, steps[0]), steps[1..], c, t);
    }
  }

  /** Serial numbers count submissions, and only copies of aborted tasks are dropped. */
  ghost predicate LogInv(s: State) {
    && (forall i :: 0 <= i < |s.log.submitted| ==> s.log.submitted[i].serial == i)
    && (forall c :: c in s.log.dropped ==> c.task in s.tasks.aborted)
  }

  lemma {:induction false} RunKeepsLogInv(s: State, steps: seq<Step>)
    requires Runs(s, steps) && LogInv(s)
    ensures LogInv(After(s, steps))
    decreases |steps|
  {
    if steps != [] {
      RunKeepsLogInv(Apply(s, steps[0]), steps[1..]);
    }
  }

  lemma {:induction false} SubmittedOnce(submitted: seq<Copy>, c: Copy)
    requires forall i :: 0 <= i < |submitted| ==> submitted[i].serial == i
    ensures multiset(submitted)[c] == One(c in submitted)
  {
    if submitted != [] {
      var last := |submitted| - 1;
      assert submitted == submitted[..last] + [submitted[last]];
      SubmittedOnce(submitted[..last], c);
    }
  }

  /** In every reachable state each submitted copy is in exactly one place, or has ended in exactly one way. */
  lemma CopiesAreConserved(n: nat, steps: seq<Step>, c: Copy)
    requires Runs(InitState(n), steps)
    ensures var s := After(InitState(n), steps);
            && InFlight(s, c) + s.log.finished[c] + s.log.dropped[c] + s.log.refused[c] == One(c in s.log.submitted)
            && (c in s.log.dropped ==> c.task in s.tasks.aborted)
  {
    NothingYet(n, OfCopy(c));
    NothingYet(n, References(c.task));
    RunKeepsLedgers(InitState(n), steps, c, c.task);
    RunKeepsLogInv(InitState(n), steps);
    SubmittedOnce(After(InitState(n), steps).log.submitted, c);
  }

  /** In every reachable state a task's count is the number of its wakers, copies and contexts. */
  lemma ReferencesAreCounted(n: nat, steps: seq<Step>, t: TaskId)
    requires Runs(InitState(n), steps)
    ensures var s := After(InitState(n), steps);
            && s.tasks.strong[t] == s.tasks.wakers[t] + Census(s, References(t))
            && (HasWaker(s, t) ==> s.tasks.strong[t] > 0)
  {
    NothingYet(n, OfCopy(Copy(t, 0)));
    NothingYet(n, References(t));
    RunKeepsLedgers(InitState(n), steps, Copy(t, 0), t);
    NoReferenceToFreedTask(After(InitState(n), steps), t);
  }
}
