/**
 Runs of the task manager in which every call is one step.

 The real calls are not atomic; `DispatcherSteps` has them in pieces, and `Overlaps` shows
 which overlaps lose work conservation. Runs of this module are the runs in which
 calls do not overlap: there, tasks are dispatched in the order of their submission, no
 executor idles while a task waits, and waiting is bounded.
 */
module DispatcherRuns {
  import opened Dispatching

  /**
   Besides the dispatcher: the executors that work on a task, the aborted tasks, every
   copy submitted so far (copy number i has serial i), the copies handed to an executor,
   and the serials of copies that were dropped or that found the queue full.
   */
  datatype State = State(
    d: Dispatcher,
    executors: nat,
    busy: set<ExecutorId>,
    aborted: set<TaskId>,
    submitted: seq<Copy>,
    dispatched: seq<Copy>,
    dropped: set<nat>,
    refused: set<nat>)

  datatype Step = Submit(task: TaskId) | Ready(executor: ExecutorId) | Receive(executor: ExecutorId) | Abort(task: TaskId)

  /** The dispatcher once executors 0 to n - 1 have been registered in turn. */
  function Registered(n: nat): Dispatcher {
    if n == 0 then Dispatcher([], [], map[]) else RegisterCall(Registered(n - 1), n - 1).0
  }

  function InitState(n: nat): State {
    State(Registered(n), n, {}, {}, [], [], {}, {})
  }

  predicate Enabled(s: State, step: Step) {
    match step
    case Submit(_) => true
    case Ready(e) => e in s.busy
    case Receive(e) => e in s.d.channels && s.d.channels[e] != []
    case Abort(_) => true
  }

  function Serials(copies: seq<Copy>): set<nat> {
    set c | c in copies :: c.serial
  }

  function Apply(s: State, step: Step): State
    requires Enabled(s, step)
  {
    match step
    case Submit(t) =>
      var c := Copy(t, |s.submitted|);
      var (d', out) := SubmitCall(s.d, s.aborted, c);
      s.(d := d',
         submitted := s.submitted + [c],
         dispatched := if out.Sent? then s.dispatched + [c] else s.dispatched,
         dropped := if out.Dropped? then s.dropped + {c.serial} else s.dropped,
         refused := if out.Panicked? || out.Blocked? then s.refused + {c.serial} else s.refused)
    case Ready(e) =>
      var (d', out) := ReadyCall(s.d, s.aborted, e);
      var k := FirstLive(s.d.waitingTasks, s.aborted);
      s.(d := d',
         busy := s.busy - {e},
         dispatched := if k < |s.d.waitingTasks| then s.dispatched + [s.d.waitingTasks[k]] else s.dispatched,
         dropped := s.dropped + Serials(s.d.waitingTasks[..k]))
    case Receive(e) => s.(d := ReceiveCall(s.d, e), busy := s.busy + {e})
    case Abort(t) => s.(aborted := s.aborted + {t})
  }

  predicate Runs(s: State, steps: seq<Step>)
    decreases |steps|
  {
    steps == [] || (Enabled(s, steps[0]) && Runs(Apply(s, steps[0]), steps[1..]))
  }

  function After(s: State, steps: seq<Step>): State
    requires Runs(s, steps)
    decreases |steps|
  {
    if steps == [] then s else After(Apply(s, steps[0]), steps[1..])
  }

  // ---------------------------------------------------------------------------
  // Deleting copies from a sequence

  function Without(copies: seq<Copy>, gone: set<nat>): seq<Copy> {
    if copies == [] then []
    else if copies[0].serial in gone then Without(copies[1..], gone)
    else [copies[0]] + Without(copies[1..], gone)
  }

  predicate Increasing(copies: seq<Copy>) {
    forall i, j :: 0 <= i < j < |copies| ==> copies[i].serial < copies[j].serial
  }

  lemma {:induction false} WithoutConcat(a: seq<Copy>, b: seq<Copy>, gone: set<nat>)
    ensures Without(a + b, gone) == Without(a, gone) + Without(b, gone)
  {
    if a == [] {
      assert a + b == b;
    } else {
      WithoutConcat(a[1..], b, gone);
      assert (a + b)[1..] == a[1..] + b;
      assert (a + b)[0] == a[0];
      assert [a[0]] + (Without(a[1..], gone) + Without(b, gone)) == ([a[0]] + Without(a[1..], gone)) + Without(b, gone);
    }
  }

  lemma {:induction false} WithoutTwice(copies: seq<Copy>, gone: set<nat>, more: set<nat>)
    ensures Without(copies, gone + more) == Without(Without(copies, gone), more)
  {
    if copies != [] {
      var rest := Without(copies[1..], gone);
      WithoutTwice(copies[1..], gone, more);
      assert ([copies[0]] + rest)[1..] == rest;
    }
  }

  lemma {:induction false} WithoutAllOrNothing(copies: seq<Copy>, gone: set<nat>)
    ensures (forall c :: c in copies ==> c.serial in gone) ==> Without(copies, gone) == []
    ensures (forall c :: c in copies ==> c.serial !in gone) ==> Without(copies, gone) == copies
  {
    if copies != [] {
      WithoutAllOrNothing(copies[1..], gone);
      assert forall c :: c in copies[1..] ==> c in copies;
      assert copies == [copies[0]] + copies[1..];
    }
  }

  lemma {:induction false} WithoutMembers(copies: seq<Copy>, gone: set<nat>, c: Copy)
    ensures c in Without(copies, gone) <==> c in copies && c.serial !in gone
  {
    if copies != [] {
      WithoutMembers(copies[1..], gone, c);
      assert c in copies <==> c == copies[0] || c in copies[1..];
    }
  }

  lemma {:induction false} WithoutIncreasing(copies: seq<Copy>, gone: set<nat>)
    requires Increasing(copies)
    ensures Increasing(Without(copies, gone))
  {
    if copies != [] {
      var rest := copies[1..];
      WithoutIncreasing(rest, gone);
      forall c | c in Without(rest, gone)
        ensures copies[0].serial < c.serial
      {
        WithoutMembers(rest, gone, c);
      }
    }
  }

  // ---------------------------------------------------------------------------
  // Order

  /** What was dispatched, followed by what still waits. */
  function Line(s: State): seq<Copy> {
    s.dispatched + s.d.waitingTasks
  }

  ghost predicate Inv(s: State) {
    && s.executors <= EXECUTOR_CAPACITY
    && Sound(s.d, s.executors, s.busy)
    && (forall i :: 0 <= i < |s.submitted| ==> s.submitted[i].serial == i)
    && (forall i :: i in s.dropped ==> i < |s.submitted| && s.submitted[i].task in s.aborted)
    && (forall i :: i in s.refused ==> i < |s.submitted|)
    && Line(s) == Without(s.submitted, s.dropped + s.refused)
  }

  lemma LineIncreases(s: State)
    requires Inv(s)
    ensures Increasing(Line(s))
  {
    WithoutIncreasing(s.submitted, s.dropped + s.refused);
  }

  lemma {:induction false} RegisteredIsIdle(n: nat)
    requires n <= EXECUTOR_CAPACITY
    ensures var d := Registered(n);
            && d.waitingTasks == []
            && |d.waitingExecutors| == n
            && (forall i :: 0 <= i < n ==> d.waitingExecutors[i] == i)
            && (forall e: ExecutorId :: e in d.channels <==> e < n)
            && (forall e :: e in d.channels ==> d.channels[e] == [])
  {
    if n > 0 {
      RegisteredIsIdle(n - 1);
    }
  }

  lemma InitHasInv(n: nat)
    requires n <= EXECUTOR_CAPACITY
    ensures Inv(InitState(n))
  {
    RegisteredIsIdle(n);
    var d := Registered(n);
    forall e: ExecutorId | e < n
      ensures e in d.waitingExecutors
    {
      assert d.waitingExecutors[e] == e;
    }
  }

  /** A new copy either joins the end of the line or is deleted at once. */
  lemma JoinLine(submitted: seq<Copy>, gone: set<nat>, c: Copy, leaves: bool)
    requires c.serial !in gone && forall x :: x in submitted ==> x.serial != c.serial
    ensures Without(submitted + [c], if leaves then gone + {c.serial} else gone)
         == Without(submitted, gone) + (if leaves then [] else [c])
  {
    var gone' := if leaves then gone + {c.serial} else gone;
    WithoutConcat(submitted, [c], gone');
    WithoutAllOrNothing([c], gone');
    if leaves {
      WithoutTwice(submitted, gone, {c.serial});
      forall x | x in Without(submitted, gone)
        ensures x.serial !in {c.serial}
      {
        WithoutMembers(submitted, gone, x);
      }
      WithoutAllOrNothing(Without(submitted, gone), {c.serial});
    }
  }

  /** What a submission adds to the line: its copy, unless that is dropped or refused. */
  lemma SubmitLine(s: State, t: TaskId)
    requires Sound(s.d, s.executors, s.busy)
    ensures var s' := Apply(s, Submit(t));
            var c := Copy(t, |s.submitted|);
            var out := SubmitCall(s.d, s.aborted, c).1;
            var leaves := out.Dropped? || out.Panicked?;
            && Line(s') == Line(s) + (if leaves then [] else [c])
            && s'.dropped + s'.refused == (if leaves then s.dropped + s.refused + {c.serial} else s.dropped + s.refused)
  {
    var c := Copy(t, |s.submitted|);
    SubmitKeepsSound(s.d, s.executors, s.busy, s.aborted, c);
    var w := s.d.waitingTasks;
    assert s.d.waitingExecutors != [] ==> w == [];
    assert (s.dispatched + w) + [c] == s.dispatched + (w + [c]);
    assert w == [] ==> (s.dispatched + w) + [c] == (s.dispatched + [c]) + w;
  }

  lemma SubmitKeepsLine(s: State, t: TaskId)
    requires Inv(s)
    ensures var s' := Apply(s, Submit(t)); Line(s') == Without(s'.submitted, s'.dropped + s'.refused)
  {
    var c := Copy(t, |s.submitted|);
    var out := SubmitCall(s.d, s.aborted, c).1;
    SubmitLine(s, t);
    JoinLine(s.submitted, s.dropped + s.refused, c, out.Dropped? || out.Panicked?);
  }

  lemma SubmitKeepsInv(s: State, t: TaskId)
    requires Inv(s)
    ensures Inv(Apply(s, Submit(t)))
  {
    SubmitKeepsSound(s.d, s.executors, s.busy, s.aborted, Copy(t, |s.submitted|));
    SubmitKeepsLine(s, t);
  }

  /** The copies in front of the first live one are deleted from the line. */
  lemma LeaveLine(submitted: seq<Copy>, gone: set<nat>, front: seq<Copy>, middle: seq<Copy>, back: seq<Copy>)
    requires Increasing(submitted) && Without(submitted, gone) == front + (middle + back)
    ensures Without(submitted, gone + Serials(middle)) == front + back
  {
    var now := Serials(middle);
    WithoutIncreasing(submitted, gone);
    WithoutTwice(submitted, gone, now);
    WithoutConcat(front, middle + back, now);
    WithoutConcat(middle, back, now);
    WithoutAllOrNothing(middle, now);
    OthersKept(front, middle, back);
    assert [] + back == back;
  }

  lemma SkippedAreAborted(s: State, k: nat)
    requires Inv(s) && k <= |s.d.waitingTasks|
    requires forall i :: 0 <= i < k ==> s.d.waitingTasks[i].task in s.aborted
    ensures forall i :: i in Serials(s.d.waitingTasks[..k]) ==> i < |s.submitted| && s.submitted[i].task in s.aborted
  {
    forall i | i in Serials(s.d.waitingTasks[..k])
      ensures i < |s.submitted| && s.submitted[i].task in s.aborted
    {
      var c :| c in s.d.waitingTasks[..k] && c.serial == i;
      assert c in Line(s);
      WithoutMembers(s.submitted, s.dropped + s.refused, c);
    }
  }

  lemma {:induction false} MoveFirst(front: seq<Copy>, w: seq<Copy>, k: nat)
    requires k < |w|
    ensures (front + [w[k]]) + w[k + 1..] == front + w[k..]
  {
    assert w[k..] == [w[k]] + w[k + 1..];
  }

  lemma ReadyDispatches(s: State, e: ExecutorId)
    requires e in s.busy
    ensures var k := FirstLive(s.d.waitingTasks, s.aborted);
            Apply(s, Ready(e)).dispatched ==
              if k < |s.d.waitingTasks| then s.dispatched + [s.d.waitingTasks[k]] else s.dispatched
    ensures Apply(s, Ready(e)).d == ReadyCall(s.d, s.aborted, e).0
  {
  }

  /** What a report leaves of the line: all but the copies in front of the first live one. */
  lemma ReadyLine(s: State, e: ExecutorId)
    requires Sound(s.d, s.executors, s.busy) && s.executors <= EXECUTOR_CAPACITY && e in s.busy
    ensures var k := FirstLive(s.d.waitingTasks, s.aborted);
            Line(Apply(s, Ready(e))) == s.dispatched + s.d.waitingTasks[k..]
  {
    var w := s.d.waitingTasks;
    var k := FirstLive(w, s.aborted);
    ReadyLeaves(s.d, s.executors, s.busy, s.aborted, e);
    ReadyDispatches(s, e);
    if k < |w| {
      MoveFirst(s.dispatched, w, k);
    } else {
      assert w[k..] == [];
    }
  }

  /** A report takes the aborted copies in front out of the queue, and the first live one. */
  lemma ReadyLeaves(d: Dispatcher, n: nat, busy: set<ExecutorId>, aborted: set<TaskId>, e: ExecutorId)
    requires Sound(d, n, busy) && e in busy && n <= EXECUTOR_CAPACITY
    ensures var k := FirstLive(d.waitingTasks, aborted);
            ReadyCall(d, aborted, e).0.waitingTasks == if k < |d.waitingTasks| then d.waitingTasks[k + 1..] else []
  {
    ReadyKeepsSound(d, n, busy, aborted, e);
  }

  lemma ReadyDrops(s: State, e: ExecutorId)
    requires e in s.busy
    ensures var s' := Apply(s, Ready(e));
            var k := FirstLive(s.d.waitingTasks, s.aborted);
            s'.submitted == s.submitted && s'.dropped + s'.refused == s.dropped + s.refused + Serials(s.d.waitingTasks[..k])
  {
  }

  lemma ReadyKeepsLine(s: State, e: ExecutorId)
    requires Inv(s) && e in s.busy
    ensures var s' := Apply(s, Ready(e)); Line(s') == Without(s'.submitted, s'.dropped + s'.refused)
  {
    var s' := Apply(s, Ready(e));
    var w := s.d.waitingTasks;
    var k := FirstLive(w, s.aborted);
    ReadyLine(s, e);
    ReadyDrops(s, e);
    assert s.dispatched + w == s.dispatched + (w[..k] + w[k..]);
    LeaveLine(s.submitted, s.dropped + s.refused, s.dispatched, w[..k], w[k..]);
  }

  lemma ReadyKeepsInv(s: State, e: ExecutorId)
    requires Inv(s) && e in s.busy
    ensures Inv(Apply(s, Ready(e)))
  {
    ReadyKeepsSound(s.d, s.executors, s.busy, s.aborted, e);
    SkippedAreAborted(s, FirstLive(s.d.waitingTasks, s.aborted));
    ReadyKeepsLine(s, e);
  }

  /** Deleting the middle of an increasing line leaves both ends alone. */
  lemma OthersKept(front: seq<Copy>, middle: seq<Copy>, back: seq<Copy>)
    requires Increasing(front + (middle + back))
    ensures Without(front, Serials(middle)) == front
    ensures Without(back, Serials(middle)) == back
  {
    var line := front + (middle + back);
    forall c, m | c in front + back && m in middle
      ensures c.serial != m.serial
    {
      var j :| 0 <= j < |middle| && middle[j] == m;
      assert line[|front| + j] == m;
      if c in front {
        var i :| 0 <= i < |front| && front[i] == c;
        assert line[i] == c;
      } else {
        var i :| 0 <= i < |back| && back[i] == c;
        assert line[|front| + |middle| + i] == c;
      }
    }
    WithoutAllOrNothing(front, Serials(middle));
    WithoutAllOrNothing(back, Serials(middle));
  }

  lemma StepKeepsInv(s: State, step: Step)
    requires Inv(s) && Enabled(s, step)
    ensures Inv(Apply(s, step))
  {
    match step
    case Submit(t) => SubmitKeepsInv(s, t);
    case Ready(e) => ReadyKeepsInv(s, e);
    case Receive(e) => ReceiveKeepsSound(s.d, s.executors, s.busy, e);
    case Abort(_) =>
  }

  lemma {:induction false} RunKeepsInv(s: State, steps: seq<Step>)
    requires Inv(s) && Runs(s, steps)
    ensures Inv(After(s, steps))
    decreases |steps|
  {
    if steps != [] {
      StepKeepsInv(s, steps[0]);
      RunKeepsInv(Apply(s, steps[0]), steps[1..]);
    }
  }

  /**
   Over every run, the dispatched tasks followed by the waiting ones are the submissions in
   order, without the copies of aborted tasks and those that found the queue full.
   */
  lemma DispatchedInSubmissionOrder(n: nat, steps: seq<Step>)
    requires n <= EXECUTOR_CAPACITY && Runs(InitState(n), steps)
    ensures var s := After(InitState(n), steps);
            && s.dispatched + s.d.waitingTasks == Without(s.submitted, s.dropped + s.refused)
            && (forall i :: i in s.dropped ==> i < |s.submitted| && s.submitted[i].task in s.aborted)
  {
    InitHasInv(n);
    RunKeepsInv(InitState(n), steps);
  }

  /** A copy is refused only when it finds no idle executor and a full queue of tasks. */
  lemma RefusedOnlyWhenFull(s: State, step: Step)
    requires Inv(s) && Enabled(s, step) && Apply(s, step).refused != s.refused
    ensures step.Submit? && step.task !in s.aborted && s.d.waitingExecutors == []
    ensures |s.d.waitingTasks| >= TASK_CAPACITY
  {
    if step.Submit? {
      SubmitKeepsSound(s.d, s.executors, s.busy, s.aborted, Copy(step.task, |s.submitted|));
    }
  }

  /** Over every run, a waiting task means that every executor has work. */
  lemma WorkIsConserved(n: nat, steps: seq<Step>)
    requires n <= EXECUTOR_CAPACITY && Runs(InitState(n), steps)
    ensures var s := After(InitState(n), steps);
            && (s.d.waitingTasks == [] || s.d.waitingExecutors == [])
            && (s.d.waitingTasks != [] ==>
                  forall e: ExecutorId :: e < n ==> e in s.d.channels && (e in s.busy || s.d.channels[e] != []))
  {
    InitHasInv(n);
    RunKeepsInv(InitState(n), steps);
    SameExecutors(InitState(n), steps);
  }

  lemma {:induction false} SameExecutors(s: State, steps: seq<Step>)
    requires Runs(s, steps)
    ensures After(s, steps).executors == s.executors
    decreases |steps|
  {
    if steps != [] {
      SameExecutors(Apply(s, steps[0]), steps[1..]);
    }
  }

  // ---------------------------------------------------------------------------
  // Bounded waiting

  /** The number of times an executor reported ready. */
  function ReadyReports(steps: seq<Step>): nat {
    if steps == [] then 0 else (if steps[0].Ready? then 1 else 0) + ReadyReports(steps[1..])
  }

  /** The copy has left the queue, to an executor or because its task was aborted. */
  predicate Settled(s: State, c: Copy) {
    c in s.dispatched || (c.serial in s.dropped && c.task in s.aborted)
  }

  lemma SettledMeansGone(s: State, c: Copy)
    requires Inv(s) && Settled(s, c)
    ensures c !in s.d.waitingTasks
  {
    LineIncreases(s);
    WithoutMembers(s.submitted, s.dropped + s.refused, c);
    assert forall i :: 0 <= i < |s.dispatched| ==> Line(s)[i] == s.dispatched[i];
    assert forall j :: 0 <= j < |s.d.waitingTasks| ==> Line(s)[|s.dispatched| + j] == s.d.waitingTasks[j];
  }

  /** A step moves a waiting copy on by at least one place per ready report, and never back. */
  lemma StepMovesOn(s: State, step: Step, k: nat)
    requires Inv(s) && Enabled(s, step) && k < |s.d.waitingTasks|
    ensures var s' := Apply(s, step);
            var c := s.d.waitingTasks[k];
            var bound := if step.Ready? then k else k + 1;
            Settled(s', c) || exists j :: 0 <= j < bound && j < |s'.d.waitingTasks| && s'.d.waitingTasks[j] == c
  {
    var s' := Apply(s, step);
    var w := s.d.waitingTasks;
    var c := w[k];
    match step
    case Ready(e) =>
      ReadyKeepsSound(s.d, s.executors, s.busy, s.aborted, e);
      var live := FirstLive(w, s.aborted);
      if k < live {
        assert w[..live][k] == c;
      } else if k > live {
        assert s'.d.waitingTasks == w[live + 1..];
        assert s'.d.waitingTasks[k - live - 1] == c;
      }
    case Submit(t) =>
      SubmitKeepsSound(s.d, s.executors, s.busy, s.aborted, Copy(t, |s.submitted|));
      assert s'.d.waitingTasks[k] == c;
    case _ =>
      assert s'.d.waitingTasks[k] == c;
  }

  lemma {:induction false} SettledForGood(s: State, steps: seq<Step>, c: Copy)
    requires Runs(s, steps) && Settled(s, c)
    ensures Settled(After(s, steps), c)
    decreases |steps|
  {
    if steps != [] {
      SettledForGood(Apply(s, steps[0]), steps[1..], c);
    }
  }

  /** The copy at place `k` is settled by the time of `k + 1` further ready reports, whatever else happens. */
  lemma {:induction false} WaitingIsBounded(s: State, steps: seq<Step>, k: nat)
    requires Inv(s) && Runs(s, steps) && k < |s.d.waitingTasks|
    requires ReadyReports(steps) > k
    ensures Settled(After(s, steps), s.d.waitingTasks[k])
    ensures s.d.waitingTasks[k] !in After(s, steps).d.waitingTasks
    decreases |steps|
  {
    var c := s.d.waitingTasks[k];
    var s' := Apply(s, steps[0]);
    StepKeepsInv(s, steps[0]);
    StepMovesOn(s, steps[0], k);
    if Settled(s', c) {
      SettledForGood(s', steps[1..], c);
      RunKeepsInv(s', steps[1..]);
      SettledMeansGone(After(s, steps), c);
    } else {
      var bound := if steps[0].Ready? then k else k + 1;
      var j :| 0 <= j < bound && j < |s'.d.waitingTasks| && s'.d.waitingTasks[j] == c;
      WaitingIsBounded(s', steps[1..], j);
    }
  }

  // ---------------------------------------------------------------------------
  // What the steps bring about

  /** The tasks submitted, in order. */
  function SubmittedIn(steps: seq<Step>): seq<TaskId> {
    if steps == [] then [] else (if steps[0].Submit? then [steps[0].task] else []) + SubmittedIn(steps[1..])
  }

  function AbortedIn(steps: seq<Step>): set<TaskId> {
    if steps == [] then {} else (if steps[0].Abort? then {steps[0].task} else {}) + AbortedIn(steps[1..])
  }

  /** The executors at work after the steps: each from a receive to its next report. */
  function BusyAfter(busy: set<ExecutorId>, steps: seq<Step>): set<ExecutorId>
    decreases |steps|
  {
    if steps == [] then busy
    else match steps[0]
         case Receive(e) => BusyAfter(busy + {e}, steps[1..])
         case Ready(e) => BusyAfter(busy - {e}, steps[1..])
         case _ => BusyAfter(busy, steps[1..])
  }

  lemma StepIsRecorded(s: State, step: Step)
    requires Enabled(s, step)
    ensures var s' := Apply(s, step);
            && TasksOf(s'.submitted) == TasksOf(s.submitted) + (if step.Submit? then [step.task] else [])
            && s'.aborted == s.aborted + (if step.Abort? then {step.task} else {})
            && s'.busy == BusyAfter(s.busy, [step])
  {
    assert [step][1..] == [];
    if step.Submit? {
      assert Apply(s, step).submitted[..|s.submitted|] == s.submitted;
    }
  }

  lemma {:induction false} StepsAreRecorded(s: State, steps: seq<Step>)
    requires Runs(s, steps)
    ensures var s' := After(s, steps);
            && TasksOf(s'.submitted) == TasksOf(s.submitted) + SubmittedIn(steps)
            && s'.aborted == s.aborted + AbortedIn(steps)
            && s'.busy == BusyAfter(s.busy, steps)
    decreases |steps|
  {
    if steps != [] {
      StepIsRecorded(s, steps[0]);
      assert [steps[0]][1..] == [];
      StepsAreRecorded(Apply(s, steps[0]), steps[1..]);
    }
  }

  /** Over every run each submission is recorded once and in order, each abort raises its flag, and each executor is busy from a receive to its report. */
  lemma RunIsRecorded(n: nat, steps: seq<Step>)
    requires Runs(InitState(n), steps)
    ensures var s := After(InitState(n), steps);
            && TasksOf(s.submitted) == SubmittedIn(steps)
            && s.aborted == AbortedIn(steps)
            && s.busy == BusyAfter({}, steps)
  {
    StepsAreRecorded(InitState(n), steps);
    assert [] + SubmittedIn(steps) == SubmittedIn(steps);
  }
}
