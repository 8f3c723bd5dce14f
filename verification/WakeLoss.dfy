/**
 The empty branch of `poll_recv`, taken apart into the load of the count and the store of the
 waker: exactly when a store loses the wake-up for good, and a run in which one does.
 */
module WakeLoss {
  import opened Dispatching
  import opened WakeChain
  import opened WakeInvariant
  import opened WakeDelivery

  /** A message is counted, and nothing is on its way to the parked receiver. */
  predicate Forgotten(s: State) {
    s.started && s.wanted > 0 && s.channel.count > 0 && !Active(s) && !Signal(s)
  }

  /** A sender will get to its tag without the receiver: past its send, or with room for it. */
  predicate CanSignal(s: State) {
    || SomeSender(s, AtCount)
    || (|s.channel.queue| < s.channel.bound && (SomeSender(s, AtSend) || SomeSender(s, Launched)))
  }

  /** Steps that neither start a send nor wake the receiver from outside. */
  predicate OnItsOwn(step: Step) {
    step.Outside? ==> step.event.OtherTag? || step.event.OtherRing? || (step.event.Wake? && step.event.task != RECEIVER)
  }

  predicate AllOnItsOwn(steps: seq<Step>) {
    forall i :: 0 <= i < |steps| ==> OnItsOwn(steps[i])
  }

  /** Left to itself, the system never polls the receiver again. */
  ghost predicate LostForGood(s: State) {
    forall steps :: Runs(s, steps) && AllOnItsOwn(steps) ==> Forgotten(After(s, steps))
  }

  // ---------------------------------------------------------------------------
  // Without a sender that can signal, the receiver stays forgotten

  /** The task manager makes no copies. */
  lemma SubmitQueuesOnly(d: Dispatcher, n: nat, busy: set<ExecutorId>, c: Copy)
    requires Sound(d, n, busy)
    ensures forall t :: WakeInvariant.Queued(SubmitCall(d, {}, c).0, t) ==> WakeInvariant.Queued(d, t) || t == c.task
  {
    var d' := SubmitCall(d, {}, c).0;
    forall t | WakeInvariant.Queued(d', t) && t != c.task
      ensures WakeInvariant.Queued(d, t)
    {
      if i :| 0 <= i < |d'.waitingTasks| && d'.waitingTasks[i].task == t {
        assert d.waitingTasks[i].task == t;
      } else {
        var e :| e in d'.channels && d'.channels[e] != [] && d'.channels[e][0].task == t;
        assert d.channels[e] == d'.channels[e];
      }
    }
  }

  lemma ReadyQueuesOnly(d: Dispatcher, n: nat, busy: set<ExecutorId>, x: ExecutorId)
    requires Sound(d, n, busy) && x in busy && n <= EXECUTOR_CAPACITY
    ensures forall t :: WakeInvariant.Queued(ReadyCall(d, {}, x).0, t) ==> WakeInvariant.Queued(d, t)
  {
    ReadyKeepsSound(d, n, busy, {}, x);
    var d' := ReadyCall(d, {}, x).0;
    forall t | WakeInvariant.Queued(d', t)
      ensures WakeInvariant.Queued(d, t)
    {
      if i :| 0 <= i < |d'.waitingTasks| && d'.waitingTasks[i].task == t {
        assert d.waitingTasks[i + 1].task == t;
      } else {
        var e :| e in d'.channels && d'.channels[e] != [] && d'.channels[e][0].task == t;
        if e == x && d.waitingTasks != [] {
          assert d.waitingTasks[0].task == t;
        } else {
          assert d.channels[e] == d'.channels[e];
        }
      }
    }
  }

  /** The receiver stays parked. */
  predicate StaysParked(s: State, s': State) {
    && s'.channel == s.channel && s'.wanted == s.wanted && s'.started == s.started
    && !Active(s')
  }

  lemma SenderIsQuiet(s: State, i: nat)
    requires Forgotten(s) && !CanSignal(s) && SenderEnabled(s, i)
    ensures s.senders[i].phase.AtWake?
    ensures var s' := ApplySender(s, i); StaysParked(s, s') && Forgotten(s') && !CanSignal(s')
  {
    assert SomeSender(s, s.senders[i].phase);
    var s' := ApplySender(s, i);
    assert s'.turns == s.turns && s'.d == s.d;
    forall phase | SomeSender(s', phase) && phase != Finished
      ensures SomeSender(s, phase)
    {
      var j :| 0 <= j < |s'.senders| && s'.senders[j].phase == phase;
      assert s.senders[j] == s'.senders[j];
    }
  }

  lemma ReactorIsQuiet(s: State)
    requires Base(s) && Forgotten(s) && ReactorEnabled(s)
    ensures var s' := ApplyReactor(s); StaysParked(s, s') && Forgotten(s') && s'.senders == s.senders
  {
    var s' := ApplyReactor(s);
    assert s'.turns == s.turns && s'.d == s.d;
    if s.reactor.phase.Draining? && s.reactor.tags != [] {
      assert s.reactor.tags == [s.reactor.tags[0]] + s'.reactor.tags;
    }
  }

  /** A turn that is not a poll of task 0 brings none about. */
  lemma TurnIsQuiet(s: State, e: nat)
    requires Base(s) && Forgotten(s) && TurnEnabled(s, e)
    ensures StaysParked(s, ApplyTurn(s, e)) && ApplyTurn(s, e).reactor == s.reactor
  {
    var s' := ApplyTurn(s, e);
    assert !Receives(s.turns[e]) && s.turns[e] != Got(RECEIVER);
    assert s'.turns == s.turns[e := s'.turns[e]] && !Receives(s'.turns[e]);
    if s.turns[e].Done? {
      assert e in Busy(s.turns);
      ReadyQueuesOnly(s.d, |s.turns|, Busy(s.turns), e);
    } else if s.turns[e].Idle? {
      ReceiveQueuesOnly(s.d, e);
    }
    assert !WakeInvariant.Queued(s.d, RECEIVER);
    assert !WakeInvariant.Queued(s'.d, RECEIVER);
    assert s'.turns[e] != Got(RECEIVER);
  }

  lemma ReceiveQueuesOnly(d: Dispatcher, e: ExecutorId)
    requires e in d.channels && |d.channels[e]| == 1
    ensures WakeInvariant.Queued(d, d.channels[e][0].task)
    ensures forall t :: WakeInvariant.Queued(ReceiveCall(d, e), t) ==> WakeInvariant.Queued(d, t)
  {
    var d' := ReceiveCall(d, e);
    forall t | WakeInvariant.Queued(d', t)
      ensures WakeInvariant.Queued(d, t)
    {
      if x :| x in d'.channels && d'.channels[x] != [] && d'.channels[x][0].task == t {
        assert d.channels[x] == d'.channels[x];
      } else {
        var i :| 0 <= i < |d'.waitingTasks| && d'.waitingTasks[i].task == t;
        assert d.waitingTasks[i].task == t;
      }
    }
  }

  /** A turn changes a sender only by beginning its poll. */
  lemma TurnChangesSender(s: State, e: nat)
    requires TurnEnabled(s, e)
    ensures var s' := ApplyTurn(s, e);
            || s'.senders == s.senders
            || exists i :: 0 <= i < |s.senders| && s.senders[i].phase.Launched? && s' == SetTurn(SetSender(s, i, AtSend), e, s'.turns[e])
  {
  }

  lemma BeginKeepsSignals(s: State, s': State, i: nat)
    requires i < |s.senders| && s.senders[i].phase.Launched? && s'.senders == SetSender(s, i, AtSend).senders
    requires s'.reactor == s.reactor && s'.channel == s.channel
    ensures Signal(s') <==> Signal(s)
    ensures CanSignal(s') <==> CanSignal(s)
  {
    assert s.senders[i].phase == Launched && s'.senders[i].phase == AtSend;
    forall j | 0 <= j < |s.senders| && j != i
      ensures s'.senders[j] == s.senders[j]
    {
    }
    assert SomeSender(s, Launched) && SomeSender(s', AtSend);
    assert SomeSender(s', AtTag) <==> SomeSender(s, AtTag);
    assert SomeSender(s', AtCount) <==> SomeSender(s, AtCount);
  }

  lemma TurnKeepsForgotten(s: State, e: nat)
    requires Base(s) && Forgotten(s) && TurnEnabled(s, e)
    ensures var s' := ApplyTurn(s, e);
            StaysParked(s, s') && Forgotten(s') && (CanSignal(s') <==> CanSignal(s))
  {
    var s' := ApplyTurn(s, e);
    TurnIsQuiet(s, e);
    TurnChangesSender(s, e);
    if s'.senders != s.senders {
      var i :| 0 <= i < |s.senders| && s.senders[i].phase.Launched? && s' == SetTurn(SetSender(s, i, AtSend), e, s'.turns[e]);
      BeginKeepsSignals(s, s', i);
    }
  }

  lemma EventKeepsForgotten(s: State, x: Event)
    requires Base(s) && Forgotten(s) && EventEnabled(s, x) && OnItsOwn(Outside(x))
    ensures var s' := ApplyEvent(s, x);
            StaysParked(s, s') && Forgotten(s') && (CanSignal(s') <==> CanSignal(s))
  {
    var s' := ApplyEvent(s, x);
    assert s'.senders == s.senders && s'.turns == s.turns;
    if x.Wake? {
      SubmitQueuesOnly(s.d, |s.turns|, Busy(s.turns), Copy(x.task, 0));
    } else {
      assert s'.d == s.d;
    }
  }

  lemma StepKeepsLost(s: State, step: Step)
    requires Base(s) && Forgotten(s) && !CanSignal(s) && Enabled(s, step) && OnItsOwn(step)
    ensures var s' := Apply(s, step); StaysParked(s, s') && Forgotten(s') && !CanSignal(s')
  {
    match step
    case SenderStep(i) => SenderIsQuiet(s, i);
    case ReactorStep => ReactorIsQuiet(s);
    case TurnStep(e) => TurnKeepsForgotten(s, e);
    case SplitLoad(_) =>
    case Outside(x) => EventKeepsForgotten(s, x);
  }

  /** Nothing is received any more, and nothing gets under way to the receiver. */
  lemma {:induction false} LostStaysLost(s: State, steps: seq<Step>)
    requires Base(s) && Forgotten(s) && !CanSignal(s) && Runs(s, steps) && AllOnItsOwn(steps)
    ensures StaysParked(s, After(s, steps)) && Forgotten(After(s, steps))
    decreases |steps|
  {
    if steps != [] {
      assert OnItsOwn(steps[0]);
      StepKeepsInv(s, steps[0]);
      StepKeepsLost(s, steps[0]);
      LostStaysLost(Apply(s, steps[0]), steps[1..]);
    }
  }

  // ---------------------------------------------------------------------------
  // A sender that can signal brings the wake-up back

  lemma StepKeepsHope(s: State, step: Step)
    requires Base(s) && Forgotten(s) && CanSignal(s) && Enabled(s, step) && Internal(step)
    ensures Forgotten(Apply(s, step)) ==> CanSignal(Apply(s, step))
  {
    var s' := Apply(s, step);
    match step
    case SenderStep(i) =>
      assert s'.senders[i].phase == s'.senders[i].phase && SomeSender(s', s'.senders[i].phase);
      assert SomeSender(s, s.senders[i].phase);
      if s.senders[i].phase.AtWake? {
        assert forall j :: 0 <= j < |s.senders| && j != i ==> s'.senders[j] == s.senders[j];
      }
    case ReactorStep => ReactorIsQuiet(s);
    case TurnStep(e) => TurnKeepsForgotten(s, e);
  }

  lemma HopeCanStep(s: State) returns (step: Step)
    requires Base(s) && Forgotten(s) && CanSignal(s) && |s.turns| > 0
    ensures Internal(step) && Enabled(s, step)
  {
    if i :| 0 <= i < |s.senders| && SenderEnabled(s, i) {
      step := SenderStep(i);
    } else {
      NoSendsUnderWay(s);
      var i :| 0 <= i < |s.senders| && s.senders[i].phase == Launched;
      assert InFlight(s, i + 1);
      if e :| 0 <= e < |s.turns| && s.turns[e] == Got(i + 1) {
        step := TurnStep(e);
      } else if e :| e in s.d.channels && s.d.channels[e] != [] {
        step := TurnStep(e);
      } else {
        assert s.d.waitingTasks != [] && 0 in s.d.channels;
        assert 0 in Busy(s.turns) && s.turns[0] != Got(RECEIVER) && !Receives(s.turns[0]);
        step := TurnStep(0);
      }
    }
  }

  lemma NoSendsUnderWay(s: State)
    requires Forgotten(s) && CanSignal(s)
    requires forall i :: 0 <= i < |s.senders| ==> !SenderEnabled(s, i)
    ensures forall i :: 0 <= i < |s.senders| ==> !Sends(s.senders[i].phase)
    ensures SomeSender(s, Launched) && |s.channel.queue| < s.channel.bound
  {
    assert !SomeSender(s, AtCount) by {
      assert forall i :: 0 <= i < |s.senders| && s.senders[i].phase == AtCount ==> SenderEnabled(s, i);
    }
    assert |s.channel.queue| < s.channel.bound;
    forall i | 0 <= i < |s.senders|
      ensures !Sends(s.senders[i].phase)
    {
      assert SomeSender(s, s.senders[i].phase);
      assert !SenderEnabled(s, i);
    }
  }

  /** Some run of the chain alone brings a wake-up under way. */
  lemma {:induction false} WakeUpReturns(s: State) returns (steps: seq<Step>)
    requires Base(s) && Forgotten(s) && CanSignal(s) && |s.turns| > 0
    ensures Runs(s, steps) && AllInternal(steps) && !Forgotten(After(s, steps))
    decreases Rank(s)
  {
    var step := HopeCanStep(s);
    StepKeepsInv(s, step);
    StepLowersRank(s, step);
    StepKeepsHope(s, step);
    StepKeepsShape(s, step);
    var s' := Apply(s, step);
    var rest := [];
    if Forgotten(s') {
      rest := WakeUpReturns(s');
    } else {
      assert Runs(s', []) && After(s', []) == s';
    }
    steps := [step] + rest;
    assert steps[1..] == rest;
  }

  /** And so does every run of the chain alone that goes on for as long as it can: the invariant holds again. */
  lemma {:induction false} EveryFullRunRecovers(s: State, steps: seq<Step>)
    requires Base(s) && Forgotten(s) && CanSignal(s) && s.reactor.stored && |s.turns| > 0
    requires Runs(s, steps) && AllInternal(steps)
    requires forall step :: Internal(step) ==> !Enabled(After(s, steps), step)
    ensures Inv(After(s, steps))
    decreases |steps|
  {
    var step := HopeCanStep(s);
    assert steps != [];
    assert Internal(steps[0]);
    var s' := Apply(s, steps[0]);
    StepKeepsInv(s, steps[0]);
    StepKeepsHope(s, steps[0]);
    StepKeepsShape(s, steps[0]);
    StoredStays(s, steps[0]);
    if Forgotten(s') {
      EveryFullRunRecovers(s', steps[1..]);
    } else {
      NoneReceives(s);
      AtomicStepStaysAtomic(s, steps[0]);
      assert forall i :: 0 <= i < |steps[1..]| ==> steps[1..][i] == steps[i + 1];
      AtomicRunsAreClean(s', steps[1..]);
      CleanRunKeepsInv(s', steps[1..]);
    }
  }

  lemma StoredStays(s: State, step: Step)
    requires Enabled(s, step) && s.reactor.stored
    ensures Apply(s, step).reactor.stored
  {
  }

  lemma NoneReceives(s: State)
    requires !Active(s)
    ensures NoneAtStore(s)
  {
    assert forall e :: 0 <= e < |s.turns| ==> !Receives(s.turns[e]);
  }

  // ---------------------------------------------------------------------------
  // The exact condition

  lemma HopeIsNotLost(s: State)
    requires Base(s) && Forgotten(s) && CanSignal(s) && |s.turns| > 0
    ensures !LostForGood(s)
  {
    var steps := WakeUpReturns(s);
    assert forall i :: 0 <= i < |steps| ==> Internal(steps[i]);
    assert AllOnItsOwn(steps);
  }

  /** The wake-up is lost for good exactly if the receiver is forgotten and no sender can signal. */
  lemma LostForGoodIff(s: State)
    requires Base(s) && |s.turns| > 0
    ensures LostForGood(s) <==> Forgotten(s) && !CanSignal(s)
  {
    if LostForGood(s) {
      assert Runs(s, []) && After(s, []) == s;
    }
    if Forgotten(s) && CanSignal(s) {
      HopeIsNotLost(s);
    }
    if Forgotten(s) && !CanSignal(s) {
      forall steps | Runs(s, steps) && AllOnItsOwn(steps)
        ensures Forgotten(After(s, steps))
      {
        LostStaysLost(s, steps);
      }
    }
  }

  /** In every state of every run, whatever stores were late. */
  lemma WakeUpLostIff(s0: State, steps: seq<Step>)
    requires Initial(s0) && |s0.turns| > 0 && Runs(s0, steps)
    ensures var s := After(s0, steps); LostForGood(s) <==> Forgotten(s) && !CanSignal(s)
  {
    InitialHasInv(s0);
    RunKeepsBase(s0, steps);
    RunKeepsShape(s0, steps);
    LostForGoodIff(After(s0, steps));
  }

  /**
   Apart from its load of the count, the store of the waker loses the wake-up for good exactly
   if it is late, a message counted and no wake on its way, and no sender can still signal.
   */
  lemma StoreLosesWakeUpIff(s: State, e: nat)
    requires Base(s) && s.started && e < |s.turns| && s.turns[e].AtStore?
    ensures LostForGood(ApplyTurn(s, e)) <==> !StoreInTime(s) && !CanSignal(s)
  {
    var s' := ApplyTurn(s, e);
    StoreKeepsInv(s, e);
    LostForGoodIff(s');
    StoreForgetsIff(s, e);
  }

  lemma StoreForgetsIff(s: State, e: nat)
    requires Base(s) && s.started && e < |s.turns| && s.turns[e].AtStore?
    ensures Forgotten(ApplyTurn(s, e)) <==> !StoreInTime(s)
    ensures CanSignal(ApplyTurn(s, e)) <==> CanSignal(s)
  {
    var s' := ApplyTurn(s, e);
    assert s'.d == s.d && s'.senders == s.senders && s'.channel == s.channel && s'.wanted == s.wanted;
    assert forall d :: 0 <= d < |s.turns| && d != e ==> s'.turns[d] == s.turns[d];
    forall d | 0 <= d < |s.turns|
      ensures !Receives(s'.turns[d])
    {
      assert d != e ==> !Receives(s.turns[d]);
    }
    if InFlight(s, RECEIVER) {
      StoreKeepsInv(s, e);
      QuietTurn(s, s', e, Done);
    } else {
      assert !HasTurn(s'.turns, Got(RECEIVER));
    }
  }

  // ---------------------------------------------------------------------------
  // A run that loses it

  /** One executor, one sending thread, one message wanted. */
  function OneOfEach(v: Message): State {
    State(Dispatcher([], [0], map[0 := []]), [Idle], [Sender(NotLaunched, v)],
          Channel(1, [], 0, [], [], []), Reactor([], false, Waiting, false), false, 1)
  }

  /** The receiver has loaded a count of zero. */
  function Loaded(v: Message): State {
    OneOfEach(v).(d := Dispatcher([], [], map[0 := []]), turns := [AtStore], started := true)
  }

  /** Meanwhile the message has been sent and counted, and its wake raised. */
  function SentMeanwhile(v: Message): State {
    Loaded(v).(senders := [Sender(Finished, v)], channel := Channel(1, [v], 1, [], [v], []),
               reactor := Reactor([true], true, Waiting, false))
  }

  /** The reactor has drained the tag, and the receiver has stored its waker. */
  function Abandoned(v: Message): State {
    SentMeanwhile(v).(d := Dispatcher([], [0], map[0 := []]), turns := [Idle], reactor := Reactor([], false, Waiting, true))
  }

  lemma LoadZero(v: Message, s: State)
    requires Reaches(Loaded(v), s)
    ensures Reaches(OneOfEach(v), s)
  {
    var s0 := OneOfEach(v);
    var s1 := Apply(s0, Outside(SpawnReceiver));
    assert [] + [Copy(0, 0)] == [Copy(0, 0)];
    assert s1.d.channels == map[0 := [Copy(0, 0)]];
    var s2 := Apply(s1, TurnStep(0));
    assert s2.d == Dispatcher([], [], map[0 := []]) && s2.turns == [Got(0)];
    var s3 := Apply(s2, TurnStep(0));
    assert Apply(s3, SplitLoad(0)) == Loaded(v);
    ReachesByStep(s3, SplitLoad(0), s);
    ReachesByStep(s2, TurnStep(0), s);
    ReachesByStep(s1, TurnStep(0), s);
    ReachesByStep(s0, Outside(SpawnReceiver), s);
  }

  lemma SendAndRing(v: Message, s: State)
    requires Reaches(SentMeanwhile(v), s)
    ensures Reaches(Loaded(v), s)
  {
    var s0 := Loaded(v);
    var s1 := Apply(s0, Outside(StartThread(0)));
    var s2 := Apply(s1, SenderStep(0));
    var s3 := Apply(s2, SenderStep(0));
    var s4 := Apply(s3, SenderStep(0));
    assert Apply(s4, SenderStep(0)) == SentMeanwhile(v);
    ReachesByStep(s4, SenderStep(0), s);
    ReachesByStep(s3, SenderStep(0), s);
    ReachesByStep(s2, SenderStep(0), s);
    ReachesByStep(s1, SenderStep(0), s);
    ReachesByStep(s0, Outside(StartThread(0)), s);
  }

  lemma DrainAndStore(v: Message)
    ensures Reaches(SentMeanwhile(v), Abandoned(v))
  {
    var s0 := SentMeanwhile(v);
    var s1 := Apply(s0, ReactorStep);
    var s2 := Apply(s1, ReactorStep);
    var s3 := Apply(s2, ReactorStep);
    var s4 := Apply(s3, ReactorStep);
    var s5 := Apply(s4, TurnStep(0));
    assert Apply(s5, TurnStep(0)) == Abandoned(v);
    ReachesItself(Abandoned(v));
    ReachesByStep(s5, TurnStep(0), Abandoned(v));
    ReachesByStep(s4, TurnStep(0), Abandoned(v));
    ReachesByStep(s3, ReactorStep, Abandoned(v));
    ReachesByStep(s2, ReactorStep, Abandoned(v));
    ReachesByStep(s1, ReactorStep, Abandoned(v));
    ReachesByStep(s0, ReactorStep, Abandoned(v));
  }

  /** If a whole send and drain fit between load and store, the chain rests with a message in the channel and a waiting receiver. */
  lemma SplitLosesWakeUp(v: Message)
    ensures Initial(OneOfEach(v)) && Reaches(OneOfEach(v), Abandoned(v))
    ensures var s := Abandoned(v); Quiescent(s) && s.wanted > 0 && s.channel.queue == [v] && s.channel.count == 1
  {
    DrainAndStore(v);
    SendAndRing(v, Abandoned(v));
    LoadZero(v, Abandoned(v));
  }
}
