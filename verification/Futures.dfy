/**
 The future of a task under every interleaving: although copies of a task may be queued
 and received many times over, its polls never overlap and none follows its completion.
 */
module Futures {
  import opened Dispatching
  import opened DispatcherSteps
  import opened Ledgers

  predicate Polls(x: Executor, t: TaskId) {
    x.phase.Polling? && x.phase.copy.task == t
  }

  /** Between two polls of a task the first one ended pending, and nothing begins after completion. */
  ghost predicate WellBracketed(polls: seq<PollEvent>, t: TaskId) {
    && (forall i, j :: 0 <= i < j < |polls| && polls[i] == Began(t) && polls[j] == Began(t) ==>
          exists m :: i < m < j && polls[m] == Pended(t))
    && (forall i, j :: 0 <= i < j < |polls| && polls[i] == Completed(t) ==> polls[j] != Began(t))
  }

  /** Every poll of the task has ended. */
  ghost predicate AllEnded(polls: seq<PollEvent>, t: TaskId) {
    forall i :: 0 <= i < |polls| && polls[i] == Began(t) ==>
      exists m :: i < m < |polls| && (polls[m] == Pended(t) || polls[m] == Completed(t))
  }

  ghost predicate PollInv(s: State, t: TaskId) {
    && WellBracketed(s.log.polls, t)
    && (!Locked(s, t) ==> AllEnded(s.log.polls, t))
    && (Completed(t) in s.log.polls <==> t in s.tasks.completed)
    && (forall e :: 0 <= e < |s.executors| && Polls(s.executors[e], t) ==> t !in s.tasks.completed)
    && (forall d, e :: 0 <= d < e < |s.executors| ==> !(Polls(s.executors[d], t) && Polls(s.executors[e], t)))
  }

  lemma BeginningKeepsBrackets(polls: seq<PollEvent>, t: TaskId)
    requires WellBracketed(polls, t) && AllEnded(polls, t) && Completed(t) !in polls
    ensures WellBracketed(polls + [Began(t)], t)
  {
    var polls' := polls + [Began(t)];
    forall i, j | 0 <= i < j < |polls'| && polls'[i] == Began(t) && polls'[j] == Began(t)
      ensures exists m :: i < m < j && polls'[m] == Pended(t)
    {
      if j == |polls| {
        assert polls[i] == Began(t);
        var m :| i < m < |polls| && (polls[m] == Pended(t) || polls[m] == Completed(t));
        assert polls'[m] == Pended(t);
      } else {
        var m :| i < m < j && polls[m] == Pended(t);
        assert polls'[m] == Pended(t);
      }
    }
  }

  lemma OtherEventsKeepBrackets(polls: seq<PollEvent>, event: PollEvent, t: TaskId)
    requires WellBracketed(polls, t) && event != Began(t)
    ensures WellBracketed(polls + [event], t)
  {
    var polls' := polls + [event];
    forall i, j | 0 <= i < j < |polls'| && polls'[i] == Began(t) && polls'[j] == Began(t)
      ensures exists m :: i < m < j && polls'[m] == Pended(t)
    {
      assert polls[i] == Began(t) && polls[j] == Began(t);
      var m :| i < m < j && polls[m] == Pended(t);
      assert polls'[m] == Pended(t);
    }
  }

  lemma EventsKeepEnded(polls: seq<PollEvent>, event: PollEvent, t: TaskId)
    requires AllEnded(polls, t) && event != Began(t)
    ensures AllEnded(polls + [event], t)
  {
    var polls' := polls + [event];
    forall i | 0 <= i < |polls'| && polls'[i] == Began(t)
      ensures exists m :: i < m < |polls'| && (polls'[m] == Pended(t) || polls'[m] == Completed(t))
    {
      assert polls[i] == Began(t);
      var m :| i < m < |polls| && (polls[m] == Pended(t) || polls[m] == Completed(t));
      assert polls'[m] == polls[m];
    }
  }

  lemma EndingEndsAll(polls: seq<PollEvent>, event: PollEvent, t: TaskId)
    requires event == Pended(t) || event == Completed(t)
    ensures AllEnded(polls + [event], t)
  {
    var polls' := polls + [event];
    forall i | 0 <= i < |polls'| && polls'[i] == Began(t)
      ensures exists m :: i < m < |polls'| && (polls'[m] == Pended(t) || polls'[m] == Completed(t))
    {
      assert polls'[|polls|] == event;
    }
  }

  lemma LockKeepsPollInv(s: State, e: nat, t: TaskId)
    requires PollInv(s, t) && Enabled(s, Lock(e))
    ensures PollInv(Apply(s, Lock(e)), t)
  {
    var s' := Apply(s, Lock(e));
    var u := s.executors[e].phase.copy.task;
    assert forall d :: 0 <= d < |s.executors| && d != e ==> s'.executors[d] == s.executors[d];
    if u in s.tasks.completed {
      assert s'.log.polls == s.log.polls;
      SameLock(s, s', e, t);
    } else if u == t {
      BeginningKeepsBrackets(s.log.polls, t);
      assert Polls(s'.executors[e], t);
      assert forall d :: 0 <= d < |s.executors| && d != e ==> !Polls(s.executors[d], t);
    } else {
      OtherEventsKeepBrackets(s.log.polls, Began(u), t);
      SameLock(s, s', e, t);
      if !Locked(s, t) {
        EventsKeepEnded(s.log.polls, Began(u), t);
      }
    }
  }

  /** One executor changes, and polls `t` neither before nor after. */
  lemma SameLock(s: State, s': State, e: nat, t: TaskId)
    requires |s'.executors| == |s.executors|
    requires forall d :: 0 <= d < |s.executors| && d != e ==> (Polls(s'.executors[d], t) <==> Polls(s.executors[d], t))
    requires e < |s.executors| ==> !Polls(s.executors[e], t) && !Polls(s'.executors[e], t)
    ensures Locked(s', t) <==> Locked(s, t)
  {
    if Locked(s, t) {
      var d :| 0 <= d < |s.executors| && s.executors[d].phase.Polling? && s.executors[d].phase.copy.task == t;
      assert Polls(s'.executors[d], t);
    }
    if Locked(s', t) {
      var d :| 0 <= d < |s'.executors| && s'.executors[d].phase.Polling? && s'.executors[d].phase.copy.task == t;
      assert Polls(s.executors[d], t);
    }
  }

  lemma FinishKeepsPollInv(s: State, e: nat, ready: bool, t: TaskId)
    requires PollInv(s, t) && Enabled(s, Finish(e, ready))
    ensures PollInv(Apply(s, Finish(e, ready)), t)
  {
    var s' := Apply(s, Finish(e, ready));
    var u := s.executors[e].phase.copy.task;
    var event := if ready then Completed(u) else Pended(u);
    assert s'.log.polls == s.log.polls + [event];
    assert forall d :: 0 <= d < |s.executors| && d != e ==> s'.executors[d] == s.executors[d];
    OtherEventsKeepBrackets(s.log.polls, event, t);
    if u == t {
      assert Polls(s.executors[e], t);
      EndingEndsAll(s.log.polls, event, t);
    } else {
      SameLock(s, s', e, t);
      if !Locked(s, t) {
        EventsKeepEnded(s.log.polls, event, t);
      }
    }
  }

  /** No poll begins or ends. */
  ghost predicate NoPoll(s: State, s': State, t: TaskId) {
    && s'.log.polls == s.log.polls
    && s'.tasks.completed == s.tasks.completed
    && |s'.executors| == |s.executors|
    && forall e {:trigger s'.executors[e]} :: 0 <= e < |s.executors| ==>
         (Polls(s'.executors[e], t) <==> Polls(s.executors[e], t))
  }

  lemma WakersPollNothing(s: State, step: Step, t: TaskId)
    requires Enabled(s, step) && Concerns(s, step) == |s.executors|
    requires !step.Check? && !step.Seek? && !step.Queue?
    ensures NoPoll(s, Apply(s, step), t)
  {
    assert Apply(s, step).executors == s.executors;
  }

  lemma CallsPollNothing(s: State, step: Step, t: TaskId)
    requires Enabled(s, step) && (step.Check? || step.Seek? || step.Queue?)
    ensures NoPoll(s, Apply(s, step), t)
  {
    assert Apply(s, step).executors == s.executors;
  }

  lemma OthersPollNothing(s: State, step: Step, t: TaskId)
    requires Enabled(s, step) && Concerns(s, step) < |s.executors| && !step.Lock? && !step.Finish?
    ensures NoPoll(s, Apply(s, step), t)
  {
    var s' := Apply(s, step);
    var e := Concerns(s, step);
    assert s'.executors == s.executors[e := s'.executors[e]];
  }

  lemma OtherStepsPollNothing(s: State, step: Step, t: TaskId)
    requires Enabled(s, step) && !step.Lock? && !step.Finish?
    ensures NoPoll(s, Apply(s, step), t)
  {
    if step.Check? || step.Seek? || step.Queue? {
      CallsPollNothing(s, step, t);
    } else if Concerns(s, step) == |s.executors| {
      WakersPollNothing(s, step, t);
    } else {
      OthersPollNothing(s, step, t);
    }
  }

  lemma OthersKeepPollInv(s: State, s': State, t: TaskId)
    requires PollInv(s, t) && NoPoll(s, s', t)
    ensures PollInv(s', t)
  {
    SameLock(s, s', |s.executors|, t);
  }

  lemma StepKeepsPollInv(s: State, step: Step, t: TaskId)
    requires PollInv(s, t) && Enabled(s, step)
    ensures PollInv(Apply(s, step), t)
  {
    match step
    case Lock(e) => LockKeepsPollInv(s, e, t);
    case Finish(e, ready) => FinishKeepsPollInv(s, e, ready, t);
    case _ =>
      OtherStepsPollNothing(s, step, t);
      OthersKeepPollInv(s, Apply(s, step), t);
  }

  lemma {:induction false} RunKeepsPollInv(s: State, steps: seq<Step>, t: TaskId)
    requires PollInv(s, t) && Runs(s, steps)
    ensures PollInv(After(s, steps), t)
    decreases |steps|
  {
    if steps != [] {
      StepKeepsPollInv(s, steps[0], t);
      RunKeepsPollInv(Apply(s, steps[0]), steps[1..], t);
    }
  }

  /** In every reachable state at most one executor polls the task, its polls have not overlapped, and none followed its completion. */
  lemma PolledOneAtATime(n: nat, steps: seq<Step>, t: TaskId)
    requires Runs(InitState(n), steps)
    ensures var s := After(InitState(n), steps);
            && (forall d, e :: 0 <= d < e < |s.executors| ==> !(Polls(s.executors[d], t) && Polls(s.executors[e], t)))
            && WellBracketed(s.log.polls, t)
  {
    RunKeepsPollInv(InitState(n), steps, t);
  }
}
