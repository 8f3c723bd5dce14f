/**
 The task manager: ready tasks and idle executors meet through two bounded queues.

 `SubmitCall` and `ReadyCall` say what one uninterrupted call does to the three
 collections. `Sound` is what every call keeps; with it no call blocks and only a full
 task queue can make one panic.
 */
module Dispatching {

  type TaskId = nat
  type ExecutorId = nat

  /** One `Arc<Task>` handed to the task manager. The serial number tells copies of a task apart. */
  datatype Copy = Copy(task: TaskId, serial: nat)

  const TASK_CAPACITY: nat := 128 * 1000
  const EXECUTOR_CAPACITY: nat := 128 * 1000
  const CHANNEL_CAPACITY: nat := 10000
  const TAG_CAPACITY: nat := 1024 * 1024  // of the reactor's buffer of channel tags

  /** `channels` maps each registered executor to the tasks that wait in its channel. */
  datatype Dispatcher = Dispatcher(
    waitingTasks: seq<Copy>,
    waitingExecutors: seq<ExecutorId>,
    channels: map<ExecutorId, seq<Copy>>)

  /** How a call ends. A blocked call never returns; a panicked one unwinds its thread. */
  datatype Outcome =
    | Dropped
    | Sent(executor: ExecutorId)
    | Queued
    | Parked
    | Blocked
    | Panicked

  function SendTo(d: Dispatcher, e: ExecutorId, c: Copy): (Dispatcher, Outcome) {
    if e !in d.channels then (d, Panicked)
    else if |d.channels[e]| >= CHANNEL_CAPACITY then (d, Blocked)
    else (d.(channels := d.channels[e := d.channels[e] + [c]]), Sent(e))
  }

  function ParkExecutor(d: Dispatcher, e: ExecutorId): (Dispatcher, Outcome) {
    if |d.waitingExecutors| < EXECUTOR_CAPACITY
    then (d.(waitingExecutors := d.waitingExecutors + [e]), Parked)
    else (d, Panicked)
  }

  function RegisterCall(d: Dispatcher, e: ExecutorId): (Dispatcher, Outcome) {
    ParkExecutor(d.(channels := d.channels[e := []]), e)
  }

  function TasksOf(copies: seq<Copy>): seq<TaskId> {
    if copies == [] then [] else TasksOf(copies[..|copies| - 1]) + [copies[|copies| - 1].task]
  }

  /** Hand a task to the longest waiting executor, or let the task wait. */
  function SubmitCall(d: Dispatcher, aborted: set<TaskId>, c: Copy): (Dispatcher, Outcome) {
    if c.task in aborted then (d, Dropped)
    else if d.waitingExecutors != [] then
      SendTo(d.(waitingExecutors := d.waitingExecutors[1..]), d.waitingExecutors[0], c)
    else if |d.waitingTasks| < TASK_CAPACITY then
      (d.(waitingTasks := d.waitingTasks + [c]), Queued)
    else (d, Panicked)
  }

  /** The place of the first task that is not aborted, or the length. */
  function FirstLive(waiting: seq<Copy>, aborted: set<TaskId>): (k: nat)
    ensures k <= |waiting|
    ensures forall i :: 0 <= i < k ==> waiting[i].task in aborted
    ensures k < |waiting| ==> waiting[k].task !in aborted
  {
    if waiting == [] || waiting[0].task !in aborted then 0
    else 1 + FirstLive(waiting[1..], aborted)
  }

  /** Give the executor the first live waiting task, or let the executor wait. */
  function ReadyCall(d: Dispatcher, aborted: set<TaskId>, e: ExecutorId): (Dispatcher, Outcome) {
    var k := FirstLive(d.waitingTasks, aborted);
    if k < |d.waitingTasks| then
      SendTo(d.(waitingTasks := d.waitingTasks[k + 1..]), e, d.waitingTasks[k])
    else
      ParkExecutor(d.(waitingTasks := []), e)
  }

  /** An aborted task in front changes nothing; a live one is what the executor gets. */
  lemma SkipAborted(d: Dispatcher, aborted: set<TaskId>, e: ExecutorId, c: Copy)
    ensures var front := d.(waitingTasks := [c] + d.waitingTasks);
            ReadyCall(front, aborted, e) == if c.task in aborted then ReadyCall(d, aborted, e) else SendTo(d, e, c)
  {
    var front := [c] + d.waitingTasks;
    assert front[1..] == d.waitingTasks;
    if c.task in aborted {
      var k := FirstLive(d.waitingTasks, aborted);
      assert FirstLive(front, aborted) == 1 + k;
      if k < |d.waitingTasks| {
        assert front[1 + k + 1..] == d.waitingTasks[k + 1..];
      }
    }
  }

  /** An executor takes the next task out of its channel. */
  function ReceiveCall(d: Dispatcher, e: ExecutorId): Dispatcher
    requires e in d.channels && d.channels[e] != []
  {
    d.(channels := d.channels[e := d.channels[e][1..]])
  }

  // ---------------------------------------------------------------------------
  // What every call keeps

  predicate NoDuplicates<T(==)>(s: seq<T>) {
    forall i, j :: 0 <= i < j < |s| ==> s[i] != s[j]
  }

  /** Tasks and executors never both wait. */
  predicate WorkConserving(d: Dispatcher) {
    d.waitingTasks == [] || d.waitingExecutors == []
  }

  /**
   Every one of the `n` executors is in exactly one place: it waits, or one task is on its
   way to it, or it is busy.
   */
  ghost predicate ExclusivePlaces(d: Dispatcher, n: nat, busy: set<ExecutorId>) {
    && (forall e: ExecutorId :: e in d.channels <==> e < n)
    && (forall e :: e in busy ==> e < n)
    && NoDuplicates(d.waitingExecutors)
    && (forall e :: e in d.waitingExecutors ==> e < n && e !in busy && d.channels[e] == [])
    && (forall e :: e in d.channels ==> |d.channels[e]| <= 1)
    && (forall e :: e in d.channels && d.channels[e] != [] ==> e !in busy)
    && (forall e :: e in d.channels ==> e in busy || d.channels[e] != [] || e in d.waitingExecutors)
  }

  ghost predicate Sound(d: Dispatcher, n: nat, busy: set<ExecutorId>) {
    ExclusivePlaces(d, n, busy) && WorkConserving(d)
  }

  /** Distinct numbers below `n` that leave out `e` are fewer than `n`. */
  lemma {:induction false} FewerThan(s: seq<nat>, n: nat, e: nat)
    requires NoDuplicates(s) && e < n && e !in s && forall x :: x in s ==> x < n
    ensures |s| < n
    decreases n
  {
    if n - 1 in s {
      var i :| 0 <= i < |s| && s[i] == n - 1;
      var rest := s[..i] + s[i + 1..];
      assert forall x :: x in rest ==> x in s;
      FewerThan(rest, n - 1, e);
    } else if e != n - 1 {
      FewerThan(s, n - 1, e);
    } else if s != [] {
      assert s[0] in s && forall x :: x in s ==> x < n - 1;
      assert forall x :: x in s[1..] ==> x in s;
      assert forall i :: 0 <= i < |s[1..]| ==> s[1..][i] == s[i + 1];
      FewerThan(s[1..], n - 1, s[0]);
    }
  }

  lemma SubmitKeepsSound(d: Dispatcher, n: nat, busy: set<ExecutorId>, aborted: set<TaskId>, c: Copy)
    requires Sound(d, n, busy)
    ensures var (d', out) := SubmitCall(d, aborted, c);
            && Sound(d', n, busy)
            && !out.Blocked?
            && (out.Panicked? <==> c.task !in aborted && d.waitingExecutors == [] && |d.waitingTasks| >= TASK_CAPACITY)
            && (out.Dropped? <==> c.task in aborted)
            && (out.Dropped? || out.Panicked? ==> d' == d)
            && (out.Sent? ==> d.waitingExecutors == [out.executor] + d'.waitingExecutors && d'.channels[out.executor] == [c])
            && (out.Queued? ==> d.waitingExecutors == [] && d' == d.(waitingTasks := d.waitingTasks + [c]))
            && !out.Parked?
  {
    var (d', out) := SubmitCall(d, aborted, c);
    if c.task !in aborted && d.waitingExecutors != [] {
      var e := d.waitingExecutors[0];
      assert forall x :: x in d.waitingExecutors <==> x == e || x in d'.waitingExecutors;
      assert e !in d'.waitingExecutors;
    }
  }

  /** Place `k` holds the first task that is not aborted. */
  predicate LiveAt(waiting: seq<Copy>, aborted: set<TaskId>, k: nat) {
    k < |waiting| && waiting[k].task !in aborted && forall i :: 0 <= i < k ==> waiting[i].task in aborted
  }

  lemma ReadyKeepsSound(d: Dispatcher, n: nat, busy: set<ExecutorId>, aborted: set<TaskId>, e: ExecutorId)
    requires Sound(d, n, busy) && e in busy && n <= EXECUTOR_CAPACITY
    ensures var (d', out) := ReadyCall(d, aborted, e);
            && Sound(d', n, busy - {e})
            && (out == Sent(e) || out.Parked?)
    ensures var (d', out) := ReadyCall(d, aborted, e);
            out == Sent(e) ==> exists k: nat :: LiveAt(d.waitingTasks, aborted, k)
                                 && d'.channels[e] == [d.waitingTasks[k]] && d'.waitingTasks == d.waitingTasks[k + 1..]
    ensures var (d', out) := ReadyCall(d, aborted, e);
            out.Parked? ==>
              && (forall x :: x in d.waitingTasks ==> x.task in aborted)
              && d' == d.(waitingTasks := [], waitingExecutors := d.waitingExecutors + [e])
  {
    var (d', out) := ReadyCall(d, aborted, e);
    FewerThan(d.waitingExecutors, n, e);
    var k := FirstLive(d.waitingTasks, aborted);
    if k < |d.waitingTasks| {
      assert LiveAt(d.waitingTasks, aborted, k);
    }
    if out.Parked? {
      assert forall x :: x in d'.waitingExecutors <==> x == e || x in d.waitingExecutors;
    }
  }

  lemma ReceiveKeepsSound(d: Dispatcher, n: nat, busy: set<ExecutorId>, e: ExecutorId)
    requires Sound(d, n, busy) && e in d.channels && d.channels[e] != []
    ensures Sound(ReceiveCall(d, e), n, busy + {e}) && e !in busy && |d.channels[e]| == 1
  {
  }

  /** While a task waits, every executor is at work or has a task in its channel. */
  lemma WaitingTaskMeansAllBusy(d: Dispatcher, n: nat, busy: set<ExecutorId>)
    requires Sound(d, n, busy) && d.waitingTasks != []
    ensures forall e: ExecutorId :: e < n ==> e in d.channels && (e in busy || d.channels[e] != [])
  {
  }
}
