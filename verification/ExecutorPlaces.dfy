/** Under every interleaving, each executor is in exactly one place. */
module ExecutorPlaces {
  import opened Dispatching
  import opened DispatcherSteps

  predicate Claimed(s: State, e: ExecutorId) {
    exists k :: 0 <= k < |s.calls| && s.calls[k].Claiming? && s.calls[k].executor == e
  }

  predicate Idle(s: State, e: ExecutorId) {
    e < |s.executors| && s.executors[e] == Executor(Receiving, [])
  }

  /** No executor is in two places. */
  ghost predicate Disjoint(s: State) {
    && |s.executors| <= EXECUTOR_CAPACITY
    && NoDuplicates(s.waitingExecutors)
    && (forall e :: e in s.waitingExecutors ==> Idle(s, e))
    && (forall k {:trigger s.calls[k]} :: 0 <= k < |s.calls| && s.calls[k].Claiming? ==>
          Idle(s, s.calls[k].executor) && s.calls[k].executor !in s.waitingExecutors)
    && (forall j, k :: 0 <= j < k < |s.calls| && s.calls[j].Claiming? && s.calls[k].Claiming? ==>
          s.calls[j].executor != s.calls[k].executor)
    && (forall e {:trigger s.executors[e]} :: 0 <= e < |s.executors| ==>
          && |s.executors[e].channel| <= 1
          && (s.executors[e].channel != [] ==> s.executors[e].phase.Receiving?))
  }

  /** And none is nowhere. */
  ghost predicate Exclusive(s: State) {
    Disjoint(s) && forall e :: Idle(s, e) ==> e in s.waitingExecutors || Claimed(s, e)
  }

  /** The four places of an executor. */
  function Places(s: State, e: ExecutorId): nat
    requires e < |s.executors|
  {
    (if e in s.waitingExecutors then 1 else 0)
    + (if Claimed(s, e) then 1 else 0)
    + (if s.executors[e].channel != [] then 1 else 0)
    + (if !s.executors[e].phase.Receiving? then 1 else 0)
  }

  lemma InitIsExclusive(n: nat)
    requires n <= EXECUTOR_CAPACITY
    ensures Exclusive(InitState(n))
  {
    var s := InitState(n);
    forall e: ExecutorId | Idle(s, e)
      ensures e in s.waitingExecutors
    {
      assert s.waitingExecutors[e] == e;
    }
  }

  /** Steps that move no executor to another place. */
  predicate Still(step: Step) {
    !step.Seek? && !step.Send? && !step.Receive? && !step.Forward? && !step.Park?
  }

  /** What a still step leaves alone. */
  predicate SameClaims(s: State, s': State) {
    && (forall k {:trigger s'.calls[k]} :: 0 <= k < |s'.calls| && s'.calls[k].Claiming? ==>
          k < |s.calls| && s'.calls[k] == s.calls[k])
    && (forall k {:trigger s.calls[k]} :: 0 <= k < |s.calls| && s.calls[k].Claiming? ==>
          k < |s'.calls| && s'.calls[k] == s.calls[k])
  }

  predicate SamePlaces(s: State, s': State) {
    && s'.waitingExecutors == s.waitingExecutors
    && SameClaims(s, s')
    && |s'.executors| == |s.executors|
    && (forall e {:trigger s'.executors[e]} {:trigger s.executors[e]} :: 0 <= e < |s.executors| ==>
          && s'.executors[e].channel == s.executors[e].channel
          && (s'.executors[e].phase.Receiving? <==> s.executors[e].phase.Receiving?))
  }

  /** A call's entry in the table changes, and neither before nor after is it a claim. */
  lemma OneCallChanges(s: State, s': State, k: nat, call: Call)
    requires s'.executors == s.executors && s'.waitingExecutors == s.waitingExecutors && !call.Claiming?
    requires s'.calls == s.calls + [call] || (k < |s.calls| && !s.calls[k].Claiming? && s'.calls == s.calls[k := call])
    ensures SamePlaces(s, s')
  {
  }

  /** An executor goes from one phase to another, neither of them `Receiving`. */
  lemma OnePhaseChanges(s: State, s': State, e: nat, phase: Phase)
    requires s'.calls == s.calls && s'.waitingExecutors == s.waitingExecutors
    requires e < |s.executors| && !s.executors[e].phase.Receiving? && !phase.Receiving?
    requires s'.executors == s.executors[e := Executor(phase, s.executors[e].channel)]
    ensures SamePlaces(s, s')
  {
  }

  lemma StillCalls(s: State, step: Step)
    requires Enabled(s, step) && Still(step)
    requires step.Spawn? || step.Wake? || step.WakeByRef? || step.Check? || step.Queue?
    ensures SamePlaces(s, Apply(s, step))
  {
    var s' := Apply(s, step);
    match step
    case Spawn(t) => OneCallChanges(s, s', 0, Checking(Copy(t, |s.log.submitted|)));
    case Wake(t) => OneCallChanges(s, s', 0, Checking(Copy(t, |s.log.submitted|)));
    case WakeByRef(t) => OneCallChanges(s, s', 0, Checking(Copy(t, |s.log.submitted|)));
    case Check(k) => OneCallChanges(s, s', k, s'.calls[k]);
    case Queue(k) => OneCallChanges(s, s', k, s'.calls[k]);
  }

  lemma StillSteps(s: State, step: Step)
    requires Enabled(s, step) && Still(step)
    ensures SamePlaces(s, Apply(s, step))
  {
    var s' := Apply(s, step);
    if step.Spawn? || step.Wake? || step.WakeByRef? || step.Check? || step.Queue? {
      StillCalls(s, step);
    } else if step.CloneWaker? || step.DropWaker? || step.Abort? {
      assert s'.calls == s.calls && s'.waitingExecutors == s.waitingExecutors && s'.executors == s.executors;
    } else {
      OnePhaseChanges(s, s', step.executor, s'.executors[step.executor].phase);
    }
  }

  /** A claim lasts until the send. */
  lemma ClaimsLast(s: State, step: Step, e: ExecutorId)
    requires Exclusive(s) && Enabled(s, step) && Claimed(s, e)
    ensures Claimed(Apply(s, step), e) || (step.Send? && s.calls[step.call].executor == e)
  {
    var k :| 0 <= k < |s.calls| && s.calls[k].Claiming? && s.calls[k].executor == e;
    if Still(step) {
      StillSteps(s, step);
    } else if !(step.Send? && step.call == k) {
      assert Apply(s, step).calls[k] == s.calls[k];
    }
  }

  /** A waiting executor waits on until it is claimed. */
  lemma WaitingLasts(s: State, step: Step, e: ExecutorId)
    requires Exclusive(s) && Enabled(s, step) && e in s.waitingExecutors
    ensures e in Apply(s, step).waitingExecutors || Claimed(Apply(s, step), e)
  {
    var s' := Apply(s, step);
    var i :| 0 <= i < |s.waitingExecutors| && s.waitingExecutors[i] == e;
    match step
    case Seek(k) =>
      if i == 0 {
        assert s'.calls[k].executor == e;
      } else {
        assert s'.waitingExecutors[i - 1] == e;
      }
    case _ => assert s'.waitingExecutors[i] == e;
  }

  /** An executor becomes idle only when it parks. */
  lemma BecomesIdle(s: State, step: Step, e: ExecutorId)
    requires Exclusive(s) && Enabled(s, step) && Idle(Apply(s, step), e)
    ensures Idle(s, e) || step == Park(e)
    ensures step.Send? ==> s.calls[step.call].executor != e
  {
    if Still(step) {
      StillSteps(s, step);
    }
  }

  lemma IdleExecutorsAreFound(s: State, step: Step, e: ExecutorId)
    requires Exclusive(s) && Enabled(s, step) && Idle(Apply(s, step), e)
    ensures e in Apply(s, step).waitingExecutors || Claimed(Apply(s, step), e)
  {
    BecomesIdle(s, step, e);
    if step == Park(e) {
      assert Apply(s, step).waitingExecutors[|s.waitingExecutors|] == e;
    } else if Claimed(s, e) {
      ClaimsLast(s, step, e);
    } else {
      WaitingLasts(s, step, e);
    }
  }

  lemma StillKeepsDisjoint(s: State, step: Step)
    requires Exclusive(s) && Enabled(s, step) && Still(step)
    ensures Disjoint(Apply(s, step))
  {
    StillSteps(s, step);
  }

  lemma SeekKeepsDisjoint(s: State, k: nat)
    requires Exclusive(s) && Enabled(s, Seek(k))
    ensures Disjoint(Apply(s, Seek(k)))
  {
    var s' := Apply(s, Seek(k));
    if s.waitingExecutors != [] {
      assert s.waitingExecutors[0] in s.waitingExecutors;
      assert forall e :: e in s'.waitingExecutors ==> e in s.waitingExecutors;
    }
  }

  lemma SendKeepsDisjoint(s: State, k: nat)
    requires Exclusive(s) && Enabled(s, Send(k))
    ensures Disjoint(Apply(s, Send(k)))
  {
  }

  lemma MoveKeepsDisjoint(s: State, step: Step)
    requires Exclusive(s) && Enabled(s, step) && (step.Receive? || step.Forward? || step.Park?)
    ensures Disjoint(Apply(s, step))
  {
    match step
    case Receive(_) =>
    case Forward(_) =>
    case Park(e) => assert e !in s.waitingExecutors;
  }

  lemma StepKeepsDisjoint(s: State, step: Step)
    requires Exclusive(s) && Enabled(s, step)
    ensures Disjoint(Apply(s, step))
  {
    match step
    case Seek(k) => SeekKeepsDisjoint(s, k);
    case Send(k) => SendKeepsDisjoint(s, k);
    case Receive(_) => MoveKeepsDisjoint(s, step);
    case Forward(_) => MoveKeepsDisjoint(s, step);
    case Park(_) => MoveKeepsDisjoint(s, step);
    case _ => StillKeepsDisjoint(s, step);
  }

  lemma StepKeepsExclusive(s: State, step: Step)
    requires Exclusive(s) && Enabled(s, step)
    ensures Exclusive(Apply(s, step))
  {
    StepKeepsDisjoint(s, step);
    forall e | Idle(Apply(s, step), e)
      ensures e in Apply(s, step).waitingExecutors || Claimed(Apply(s, step), e)
    {
      IdleExecutorsAreFound(s, step, e);
    }
  }

  lemma {:induction false} RunKeepsExclusive(s: State, steps: seq<Step>)
    requires Exclusive(s) && Runs(s, steps)
    ensures Exclusive(After(s, steps))
    decreases |steps|
  {
    if steps != [] {
      StepKeepsExclusive(s, steps[0]);
      RunKeepsExclusive(Apply(s, steps[0]), steps[1..]);
    }
  }

  lemma {:induction false} SameExecutors(s: State, steps: seq<Step>)
    requires Runs(s, steps)
    ensures |After(s, steps).executors| == |s.executors|
    decreases |steps|
  {
    if steps != [] {
      SameExecutors(Apply(s, steps[0]), steps[1..]);
    }
  }

  /** Each executor is in exactly one of its four places, only once, in every reachable state. */
  lemma ExactlyOnePlace(n: nat, steps: seq<Step>, e: ExecutorId)
    requires n <= EXECUTOR_CAPACITY && Runs(InitState(n), steps) && e < n
    ensures var s := After(InitState(n), steps);
            && |s.executors| == n
            && Places(s, e) == 1
            && |s.executors[e].channel| <= 1
            && (forall i, j :: 0 <= i < j < |s.waitingExecutors| ==> s.waitingExecutors[i] != s.waitingExecutors[j])
            && (forall j, k :: 0 <= j < k < |s.calls| && s.calls[j].Claiming? && s.calls[k].Claiming? ==>
                  s.calls[j].executor != s.calls[k].executor)
  {
    InitIsExclusive(n);
    RunKeepsExclusive(InitState(n), steps);
    SameExecutors(InitState(n), steps);
    var s := After(InitState(n), steps);
    if s.executors[e].phase.Receiving? && s.executors[e].channel == [] {
      assert Idle(s, e);
    }
  }

  /** No send to an executor waits, not even one to itself, and an executor always finds room to wait. */
  lemma NothingBlocks(s: State)
    requires Exclusive(s)
    ensures forall k :: 0 <= k < |s.calls| && s.calls[k].Claiming? ==>
              Enabled(s, Send(k)) && s.executors[s.calls[k].executor].channel == []
    ensures forall e: nat :: e < |s.executors| && s.executors[e].phase.Forwarding? ==>
              Enabled(s, Forward(e)) && s.executors[e].channel == []
    ensures forall e: nat :: e < |s.executors| && s.executors[e].phase.Parking? ==> Enabled(s, Park(e))
  {
    forall e: nat | e < |s.executors| && s.executors[e].phase.Parking?
      ensures Enabled(s, Park(e))
    {
      FewerThan(s.waitingExecutors, |s.executors|, e);
    }
  }
}
