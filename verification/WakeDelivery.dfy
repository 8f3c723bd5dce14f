/**
 Delivery over the wake-up chain: every step of the chain lowers a rank, an event from outside
 raises it by a constant, and until the receiver has what it wants some step of the chain can
 be taken, unless every executor is held up by a send into a full channel. A join handle is
 the chain with one sender, one place in the channel, and one receive.
 */
module WakeDelivery {
  import opened Dispatching
  import opened WakeChain
  import opened WakeInvariant

  /** A step that the chain takes by itself. */
  predicate Internal(step: Step) {
    step.SenderStep? || step.ReactorStep? || step.TurnStep?
  }

  // ---------------------------------------------------------------------------
  // Sums over senders and turns

  /** What a sender has still to do; whether its tag, its value is still to come. */
  datatype Measure = Work | Untagged | Unsent

  function OfSender(m: Measure, phase: SenderPhase): nat {
    match (m, phase)
    case (_, Finished) => 0
    case (Work, NotLaunched) => 0
    case (Work, Launched) => 18
    case (Work, AtSend) => 17
    case (Work, AtCount) => 13
    case (Work, AtTag) => 12
    case (Work, AtWake) => 3
    case (Untagged, AtWake) => 0
    case (Untagged, _) => 1
    case (Unsent, NotLaunched) => 1
    case (Unsent, Launched) => 1
    case (Unsent, AtSend) => 1
    case (Unsent, _) => 0
  }

  function SenderSum(m: Measure, senders: seq<Sender>): nat {
    if senders == [] then 0 else OfSender(m, senders[0].phase) + SenderSum(m, senders[1..])
  }

  lemma {:induction false} SenderSumUpdate(m: Measure, senders: seq<Sender>, i: nat, x: Sender)
    requires i < |senders|
    ensures SenderSum(m, senders[i := x]) + OfSender(m, senders[i].phase) == SenderSum(m, senders) + OfSender(m, x.phase)
    ensures OfSender(m, senders[i].phase) <= SenderSum(m, senders)
  {
    if i > 0 {
      SenderSumUpdate(m, senders[1..], i - 1, x);
      assert senders[i := x][1..] == senders[1..][i - 1 := x];
    }
  }

  lemma {:induction false} SenderSumZero(m: Measure, senders: seq<Sender>)
    requires forall i :: 0 <= i < |senders| ==> OfSender(m, senders[i].phase) == 0
    ensures SenderSum(m, senders) == 0
  {
    if senders != [] {
      SenderSumZero(m, senders[1..]);
    }
  }

  function OfTurn(turn: Turn): nat {
    match turn
    case Idle => 0
    case Got(_) => 4
    case AtRecv => 3
    case AtStore => 2
    case AtTake => 2
    case AtDecrement => 4
    case Sending(_) => 2
    case Done => 1
  }

  function TurnSum(turns: seq<Turn>): nat {
    if turns == [] then 0 else OfTurn(turns[0]) + TurnSum(turns[1..])
  }

  lemma {:induction false} TurnSumUpdate(turns: seq<Turn>, e: nat, turn: Turn)
    requires e < |turns|
    ensures TurnSum(turns[e := turn]) + OfTurn(turns[e]) == TurnSum(turns) + OfTurn(turn)
  {
    if e > 0 {
      TurnSumUpdate(turns[1..], e - 1, turn);
      assert turns[e := turn][1..] == turns[1..][e - 1 := turn];
    }
  }

  /** The number of copies in the channels of the first `n` executors. */
  function Load(channels: map<ExecutorId, seq<Copy>>, n: nat): nat {
    if n == 0 then 0 else Load(channels, n - 1) + (if n - 1 in channels then |channels[n - 1]| else 0)
  }

  lemma {:induction false} LoadUpdate(channels: map<ExecutorId, seq<Copy>>, n: nat, e: ExecutorId, channel: seq<Copy>)
    requires e in channels
    ensures Load(channels[e := channel], n) + (if e < n then |channels[e]| else 0)
         == Load(channels, n) + (if e < n then |channel| else 0)
  {
    if n > 0 {
      LoadUpdate(channels, n - 1, e, channel);
    }
  }

  // ---------------------------------------------------------------------------
  // The rank

  /** Copies of tasks: waiting ones weigh more than those in a channel. */
  function CopyRank(d: Dispatcher, n: nat): nat {
    6 * |d.waitingTasks| + 5 * Load(d.channels, n)
  }

  function OfReactor(phase: ReactorPhase): nat {
    match phase
    case Waiting => 0
    case Draining => 1
    case Holding(_) => 8
  }

  function ReactorRank(r: Reactor): nat {
    8 * |r.tags| + (if r.woken then 2 else 0) + OfReactor(r.phase)
  }

  function Rank(s: State): nat {
    SenderSum(Work, s.senders) + TurnSum(s.turns) + 3 * |s.channel.queue| + ReactorRank(s.reactor) + CopyRank(s.d, |s.turns|)
  }

  lemma SubmitRank(d: Dispatcher, n: nat, busy: set<ExecutorId>, c: Copy)
    requires Sound(d, n, busy)
    ensures CopyRank(SubmitCall(d, {}, c).0, n) <= CopyRank(d, n) + 6
    ensures |SubmitCall(d, {}, c).0.waitingTasks| <= |d.waitingTasks| + 1
  {
    if d.waitingExecutors != [] {
      var e := d.waitingExecutors[0];
      assert e in d.waitingExecutors && d.channels[e] + [c] == [c];
      LoadUpdate(d.channels, n, e, [c]);
    }
  }

  lemma ReadyRank(d: Dispatcher, n: nat, busy: set<ExecutorId>, e: ExecutorId)
    requires Sound(d, n, busy) && e in busy && n <= EXECUTOR_CAPACITY
    ensures CopyRank(ReadyCall(d, {}, e).0, n) <= CopyRank(d, n)
    ensures |ReadyCall(d, {}, e).0.waitingTasks| <= |d.waitingTasks|
  {
    if d.waitingTasks != [] {
      assert e in d.channels && d.channels[e] + [d.waitingTasks[0]] == [d.waitingTasks[0]];
      LoadUpdate(d.channels, n, e, [d.waitingTasks[0]]);
    }
  }

  lemma SenderLowersRank(s: State, i: nat)
    requires SenderEnabled(s, i)
    ensures Rank(ApplySender(s, i)) < Rank(s)
  {
    var s' := ApplySender(s, i);
    SenderSumUpdate(Work, s.senders, i, s'.senders[i]);
    assert s'.senders == s.senders[i := s'.senders[i]];
    assert s'.turns == s.turns && s'.d == s.d;
  }

  lemma ReactorLowersRank(s: State)
    requires Base(s) && ReactorEnabled(s)
    ensures Rank(ApplyReactor(s)) < Rank(s)
  {
    var s' := ApplyReactor(s);
    assert s'.turns == s.turns && s'.senders == s.senders;
    SubmitRank(s.d, |s.turns|, Busy(s.turns), Copy(RECEIVER, 0));
  }

  lemma ReceiveLowersRank(s: State, e: nat)
    requires Base(s) && TurnEnabled(s, e) && s.turns[e].Idle?
    ensures Rank(ApplyTurn(s, e)) < Rank(s)
  {
    var s' := ApplyTurn(s, e);
    TurnSumUpdate(s.turns, e, s'.turns[e]);
    LoadUpdate(s.d.channels, |s.turns|, e, s.d.channels[e][1..]);
    assert s'.turns == s.turns[e := s'.turns[e]];
  }

  lemma BeginLowersRank(s: State, e: nat)
    requires TurnEnabled(s, e) && s.turns[e].Got?
    ensures Rank(ApplyTurn(s, e)) < Rank(s)
  {
    var s' := ApplyTurn(s, e);
    TurnSumUpdate(s.turns, e, s'.turns[e]);
    assert s'.turns == s.turns[e := s'.turns[e]] && s'.d == s.d;
    var t := s.turns[e].task;
    if t != RECEIVER && t <= |s.senders| && s.senders[t - 1].phase.Launched? {
      SenderSumUpdate(Work, s.senders, t - 1, s'.senders[t - 1]);
      assert s'.senders == s.senders[t - 1 := s'.senders[t - 1]];
    } else {
      assert s'.senders == s.senders;
    }
  }

  lemma ReportLowersRank(s: State, e: nat)
    requires Base(s) && TurnEnabled(s, e) && s.turns[e].Done?
    ensures Rank(ApplyTurn(s, e)) < Rank(s)
  {
    var s' := ApplyTurn(s, e);
    TurnSumUpdate(s.turns, e, Idle);
    assert s'.turns == s.turns[e := Idle] && s'.senders == s.senders;
    assert e in Busy(s.turns);
    ReadyRank(s.d, |s.turns|, Busy(s.turns), e);
  }

  lemma PollLowersRank(s: State, e: nat)
    requires TurnEnabled(s, e) && !s.turns[e].Idle? && !s.turns[e].Got? && !s.turns[e].Done?
    ensures Rank(ApplyTurn(s, e)) < Rank(s)
  {
    var s' := ApplyTurn(s, e);
    TurnSumUpdate(s.turns, e, s'.turns[e]);
    assert s'.turns == s.turns[e := s'.turns[e]] && s'.senders == s.senders && s'.d == s.d;
  }

  lemma TurnLowersRank(s: State, e: nat)
    requires Base(s) && TurnEnabled(s, e)
    ensures Rank(ApplyTurn(s, e)) < Rank(s)
  {
    match s.turns[e]
    case Idle => ReceiveLowersRank(s, e);
    case Got(_) => BeginLowersRank(s, e);
    case Done => ReportLowersRank(s, e);
    case _ => PollLowersRank(s, e);
  }

  /** Every internal step lowers the rank. */
  lemma StepLowersRank(s: State, step: Step)
    requires Base(s) && Enabled(s, step) && Internal(step)
    ensures Rank(Apply(s, step)) < Rank(s)
  {
    match step
    case SenderStep(i) => SenderLowersRank(s, i);
    case ReactorStep => ReactorLowersRank(s);
    case TurnStep(e) => TurnLowersRank(s, e);
  }

  /** An event from outside raises the rank by at most 24. */
  lemma EventRaisesRank(s: State, x: Event)
    requires Base(s) && EventEnabled(s, x)
    ensures Rank(ApplyEvent(s, x)) <= Rank(s) + 24
  {
    var s' := ApplyEvent(s, x);
    assert s'.turns == s.turns && s'.channel == s.channel;
    match x
    case SpawnReceiver => SubmitRank(s.d, |s.turns|, Busy(s.turns), Copy(RECEIVER, 0));
    case Wake(t) => SubmitRank(s.d, |s.turns|, Busy(s.turns), Copy(t, 0));
    case Spawn(i) =>
      SubmitRank(s.d, |s.turns|, Busy(s.turns), Copy(i + 1, 0));
      SenderSumUpdate(Work, s.senders, i, s'.senders[i]);
      assert s'.senders == s.senders[i := s'.senders[i]];
    case StartThread(i) =>
      SenderSumUpdate(Work, s.senders, i, s'.senders[i]);
      assert s'.senders == s.senders[i := s'.senders[i]];
    case OtherTag =>
    case OtherRing =>
  }

  lemma SplitLowersRank(s: State, e: nat)
    requires Enabled(s, SplitLoad(e))
    ensures Rank(Apply(s, SplitLoad(e))) < Rank(s)
  {
    TurnSumUpdate(s.turns, e, AtStore);
    assert Apply(s, SplitLoad(e)) == s.(turns := s.turns[e := AtStore]);
  }

  function Events(steps: seq<Step>): nat {
    if steps == [] then 0 else (if steps[0].Outside? then 1 else 0) + Events(steps[1..])
  }

  /** Between any two states of any run the chain takes at most the rank in steps, and 24 for each event. */
  lemma {:induction false} RunsAreBounded(s: State, steps: seq<Step>)
    requires Base(s) && Runs(s, steps)
    ensures |steps| + Rank(After(s, steps)) <= Rank(s) + 25 * Events(steps)
    decreases |steps|
  {
    if steps != [] {
      match steps[0] {
        case Outside(x) => EventRaisesRank(s, x);
        case SplitLoad(e) => SplitLowersRank(s, e);
        case _ => StepLowersRank(s, steps[0]);
      }
      StepKeepsInv(s, steps[0]);
      RunsAreBounded(Apply(s, steps[0]), steps[1..]);
    }
  }

  // ---------------------------------------------------------------------------
  // Room

  /** No internal run can make more tasks wait, or more tags, than this. */
  function Pending(s: State): nat {
    |s.d.waitingTasks| + |s.reactor.tags| + SenderSum(Untagged, s.senders) + (if s.reactor.phase.Holding? then 1 else 0)
  }

  lemma TurnKeepsPending(s: State, e: nat)
    requires Base(s) && TurnEnabled(s, e)
    ensures Pending(ApplyTurn(s, e)) <= Pending(s)
  {
    var s' := ApplyTurn(s, e);
    assert s'.reactor.tags == s.reactor.tags && s'.reactor.phase == s.reactor.phase;
    if s.turns[e].Done? {
      assert e in Busy(s.turns);
      ReadyRank(s.d, |s.turns|, Busy(s.turns), e);
    } else if s.turns[e].Got? && s'.senders != s.senders {
      var i := s.turns[e].task - 1;
      SenderSumUpdate(Untagged, s.senders, i, s'.senders[i]);
      assert s'.senders == s.senders[i := s'.senders[i]];
    }
  }

  lemma SenderKeepsPending(s: State, i: nat)
    requires SenderEnabled(s, i)
    ensures Pending(ApplySender(s, i)) <= Pending(s)
  {
    var s' := ApplySender(s, i);
    SenderSumUpdate(Untagged, s.senders, i, s'.senders[i]);
    assert s'.senders == s.senders[i := s'.senders[i]] && s'.d == s.d;
  }

  lemma ReactorKeepsPending(s: State)
    requires Base(s) && ReactorEnabled(s)
    ensures Pending(ApplyReactor(s)) <= Pending(s)
  {
    assert ApplyReactor(s).senders == s.senders;
    SubmitRank(s.d, |s.turns|, Busy(s.turns), Copy(RECEIVER, 0));
  }

  lemma StepKeepsPending(s: State, step: Step)
    requires Base(s) && Enabled(s, step) && Internal(step)
    ensures Pending(Apply(s, step)) <= Pending(s)
  {
    match step
    case SenderStep(i) => SenderKeepsPending(s, i);
    case ReactorStep => ReactorKeepsPending(s);
    case TurnStep(e) => TurnKeepsPending(s, e);
  }

  // ---------------------------------------------------------------------------
  // Sends and receives

  predicate IsValueOf(senders: seq<Sender>, v: Message) {
    exists i :: 0 <= i < |senders| && senders[i].value == v
  }

  /** Each sender sends once, its own value; `total` receives are made or still wanted. */
  predicate Accounts(s: State, total: nat) {
    && |s.channel.sent| + SenderSum(Unsent, s.senders) == |s.senders|
    && (forall k :: 0 <= k < |s.channel.sent| ==> IsValueOf(s.senders, s.channel.sent[k]))
    && |s.channel.received| + s.wanted == total
  }

  /** Senders keep their values. */
  lemma PhaseKeepsValues(senders: seq<Sender>, i: nat, phase: SenderPhase)
    requires i < |senders|
    ensures var senders' := senders[i := senders[i].(phase := phase)];
            forall v :: IsValueOf(senders, v) ==> IsValueOf(senders', v)
  {
    var senders' := senders[i := senders[i].(phase := phase)];
    forall v | IsValueOf(senders, v)
      ensures IsValueOf(senders', v)
    {
      var j :| 0 <= j < |senders| && senders[j].value == v;
      assert senders'[j].value == v;
    }
  }

  lemma SenderKeepsAccounts(s: State, i: nat, total: nat)
    requires SenderEnabled(s, i) && Accounts(s, total)
    ensures Accounts(ApplySender(s, i), total)
  {
    var s' := ApplySender(s, i);
    SenderSumUpdate(Unsent, s.senders, i, s'.senders[i]);
    assert s'.senders == s.senders[i := s'.senders[i]];
    PhaseKeepsValues(s.senders, i, s'.senders[i].phase);
    assert IsValueOf(s.senders, s.senders[i].value);
  }

  lemma BeginKeepsAccounts(s: State, e: nat, total: nat)
    requires TurnEnabled(s, e) && s.turns[e].Got? && Accounts(s, total)
    ensures Accounts(ApplyTurn(s, e), total)
  {
    var s' := ApplyTurn(s, e);
    assert s'.channel == s.channel;
    if s'.senders != s.senders {
      var i := s.turns[e].task - 1;
      SenderSumUpdate(Unsent, s.senders, i, s'.senders[i]);
      PhaseKeepsValues(s.senders, i, AtSend);
      assert s'.senders == s.senders[i := s'.senders[i]];
    }
  }

  lemma TurnKeepsAccounts(s: State, e: nat, total: nat)
    requires Base(s) && TurnEnabled(s, e) && Accounts(s, total)
    ensures Accounts(ApplyTurn(s, e), total)
  {
    if s.turns[e].Got? {
      BeginKeepsAccounts(s, e, total);
    } else {
      var s' := ApplyTurn(s, e);
      assert s'.channel.sent == s.channel.sent && s'.senders == s.senders;
    }
  }

  lemma EventKeepsAccounts(s: State, x: Event, total: nat)
    requires EventEnabled(s, x) && Accounts(s, total)
    ensures Accounts(ApplyEvent(s, x), total)
  {
    var s' := ApplyEvent(s, x);
    if x.Spawn? || x.StartThread? {
      SenderSumUpdate(Unsent, s.senders, x.sender, s'.senders[x.sender]);
      PhaseKeepsValues(s.senders, x.sender, s'.senders[x.sender].phase);
      assert s'.senders == s.senders[x.sender := s'.senders[x.sender]];
    }
  }

  lemma ReactorKeepsAccounts(s: State, total: nat)
    requires ReactorEnabled(s) && Accounts(s, total)
    ensures Accounts(ApplyReactor(s), total)
  {
    var s' := ApplyReactor(s);
    assert s'.channel == s.channel && s'.senders == s.senders && s'.wanted == s.wanted;
  }

  lemma StepKeepsAccounts(s: State, step: Step, total: nat)
    requires Base(s) && Enabled(s, step) && Accounts(s, total)
    ensures Accounts(Apply(s, step), total)
  {
    match step
    case SenderStep(i) => SenderKeepsAccounts(s, i, total);
    case ReactorStep => ReactorKeepsAccounts(s, total);
    case TurnStep(e) => TurnKeepsAccounts(s, e, total);
    case SplitLoad(e) => assert Apply(s, step) == s.(turns := s.turns[e := AtStore]);
    case Outside(x) => EventKeepsAccounts(s, x, total);
  }

  // ---------------------------------------------------------------------------
  // Progress

  /** The receiver and every sender are launched, and the task queue has room for what is under way. */
  predicate UnderWay(s: State) {
    && s.started
    && (forall i :: 0 <= i < |s.senders| ==> !s.senders[i].phase.NotLaunched?)
    && Pending(s) <= TASK_CAPACITY
  }

  /** And no more is wanted than will be sent. */
  ghost predicate Closed(s: State, total: nat) {
    && Inv(s) && NoneAtStore(s) && Accounts(s, total)
    && |s.turns| > 0 && s.channel.bound > 0 && total <= |s.senders|
    && UnderWay(s)
  }

  predicate Sends(phase: SenderPhase) {
    phase.AtSend? || phase.AtCount? || phase.AtTag? || phase.AtWake?
  }

  /** The executor polls, or is about to lock, the future of a sender that has yet to send. */
  predicate Held(s: State, e: nat)
    requires e < |s.turns|
  {
    match s.turns[e]
    case Sending(i) => i < |s.senders| && s.senders[i].phase.AtSend?
    case Got(t) => 0 < t <= |s.senders| && s.senders[t - 1].phase.AtSend?
    case _ => false
  }

  /** The channel is full, and every executor is held up by a send. */
  predicate Jammed(s: State) {
    |s.channel.queue| >= s.channel.bound && forall e :: 0 <= e < |s.turns| ==> Held(s, e)
  }

  lemma SenderCanStep(s: State, total: nat, i: nat)
    requires Closed(s, total) && i < |s.senders| && Sends(s.senders[i].phase)
    requires s.senders[i].phase.AtSend? ==> |s.channel.queue| < s.channel.bound
    ensures SenderEnabled(s, i)
  {
    SenderSumUpdate(Untagged, s.senders, i, s.senders[i]);
  }

  /** No sender can step: each is done, waits for its task to run, or waits for room. */
  predicate SendersWait(s: State) {
    forall i :: 0 <= i < |s.senders| ==>
      || s.senders[i].phase.Finished? || s.senders[i].phase.Launched?
      || (s.senders[i].phase.AtSend? && |s.channel.queue| >= s.channel.bound)
  }

  lemma TurnCanStep(s: State, total: nat, e: nat) returns (step: Step)
    requires Closed(s, total) && s.wanted > 0 && SendersWait(s)
    requires e < |s.turns| && !s.turns[e].Idle? && !Held(s, e)
    ensures Internal(step) && Enabled(s, step)
  {
    NoneUncounted(s.senders);
    step := TurnStep(e);
    if s.turns[e] == Got(RECEIVER) && !ReceiverFree(s) {
      var d :| 0 <= d < |s.turns| && Receives(s.turns[d]);
      step := TurnStep(d);
    }
  }

  /** With no executor in a turn except those held up, and one of them idle, all has been delivered. */
  lemma AtRestIsDone(s: State, total: nat, x: nat)
    requires Closed(s, total) && SendersWait(s)
    requires s.reactor.phase.Waiting? && !s.reactor.woken
    requires forall e :: 0 <= e < |s.turns| ==> s.turns[e].Idle? || Held(s, e)
    requires forall e :: e in s.d.channels ==> s.d.channels[e] == []
    requires x < |s.turns| && s.turns[x].Idle?
    ensures s.wanted == 0
  {
    assert x in s.d.channels && x !in Busy(s.turns);
    assert s.d.waitingTasks == [];
    NoneUncounted(s.senders);
    if s.wanted > 0 {
      assert !Active(s) && !Signal(s);
      assert s.channel.count == 0;
      forall i | 0 <= i < |s.senders|
        ensures s.senders[i].phase.Finished?
      {
        assert InFlight(s, i + 1) ==> HasTurn(s.turns, Got(i + 1));
      }
      SenderSumZero(Unsent, s.senders);
    }
  }

  /** Until the receiver has what it wants, the chain can take a step, unless it is jammed. */
  lemma SomeStepIsEnabled(s: State, total: nat) returns (step: Step)
    requires Closed(s, total) && s.wanted > 0 && !Jammed(s)
    ensures Internal(step) && Enabled(s, step)
  {
    if i :| 0 <= i < |s.senders| && Sends(s.senders[i].phase)
            && (s.senders[i].phase.AtSend? ==> |s.channel.queue| < s.channel.bound) {
      SenderCanStep(s, total, i);
      step := SenderStep(i);
    } else if !s.reactor.phase.Waiting? || s.reactor.woken {
      step := ReactorStep;
    } else if e :| 0 <= e < |s.turns| && !s.turns[e].Idle? && !Held(s, e) {
      step := TurnCanStep(s, total, e);
    } else if e :| e in s.d.channels && s.d.channels[e] != [] {
      step := TurnStep(e);
    } else {
      var x := IdleUnlessJammed(s);
      AtRestIsDone(s, total, x);
      assert false;
    }
  }

  lemma IdleUnlessJammed(s: State) returns (x: nat)
    requires !Jammed(s) && SendersWait(s) && |s.turns| > 0
    requires forall e :: 0 <= e < |s.turns| ==> s.turns[e].Idle? || Held(s, e)
    ensures x < |s.turns| && s.turns[x].Idle?
  {
    x := 0;
    if Held(s, 0) {
      x :| 0 <= x < |s.turns| && !Held(s, x);
    }
  }

  /** A jam is for good: whatever happens, inside or outside, nothing more is received. */
  lemma {:induction false} JammedForGood(s: State, steps: seq<Step>)
    requires Jammed(s) && |s.turns| > 0 && Runs(s, steps)
    ensures var s' := After(s, steps);
            Jammed(s') && s'.channel.received == s.channel.received && s'.wanted == s.wanted
    decreases |steps|
  {
    if steps != [] {
      StepKeepsJam(s, steps[0]);
      JammedForGood(Apply(s, steps[0]), steps[1..]);
    }
  }

  lemma StepKeepsJam(s: State, step: Step)
    requires Jammed(s) && |s.turns| > 0 && Enabled(s, step)
    ensures var s' := Apply(s, step);
            && Jammed(s') && |s'.turns| > 0
            && s'.channel.received == s.channel.received && s'.wanted == s.wanted
  {
    var s' := Apply(s, step);
    assert Held(s, 0);
    match step
    case TurnStep(e) => HeldIsStuck(s, e);
    case SplitLoad(e) => HeldIsStuck(s, e);
    case SenderStep(_) => SameHolds(s, s');
    case ReactorStep => SameHolds(s, s');
    case Outside(x) => EventKeepsHolds(s, x);
  }

  lemma EventKeepsHolds(s: State, x: Event)
    requires Jammed(s) && EventEnabled(s, x)
    ensures Jammed(ApplyEvent(s, x))
  {
    SameHolds(s, ApplyEvent(s, x));
  }

  /** Executors stay held up as long as the senders that hold them stay where they are. */
  lemma SameHolds(s: State, s': State)
    requires Jammed(s) && s'.turns == s.turns && |s'.senders| == |s.senders|
    requires s'.channel.bound == s.channel.bound && |s'.channel.queue| >= |s.channel.queue|
    requires forall i :: 0 <= i < |s.senders| && s.senders[i].phase.AtSend? ==> s'.senders[i].phase.AtSend?
    ensures Jammed(s')
  {
    forall e | 0 <= e < |s'.turns|
      ensures Held(s', e)
    {
      assert Held(s, e);
    }
  }

  lemma HeldIsStuck(s: State, e: nat)
    ensures e < |s.turns| && Held(s, e) ==> !TurnEnabled(s, e) && !s.turns[e].AtRecv?
  {
  }

  /** A channel of one place, two senders, one executor. */
  function TwoSends(v: Message, w: Message): State {
    State(Dispatcher([], [0], map[0 := []]), [Idle], [Sender(NotLaunched, v), Sender(NotLaunched, w)],
          Channel(1, [], 0, [], [], []), Reactor([], false, Waiting, false), false, 1)
  }

  /** A thread has filled the channel, and the other task is spawned. */
  function Filled(v: Message, w: Message): State {
    TwoSends(v, w).(d := Dispatcher([], [], map[0 := [Copy(2, 0)]]),
                    senders := [Sender(AtCount, v), Sender(Launched, w)], channel := Channel(1, [v], 0, [], [v], []))
  }

  lemma ChannelFills(v: Message, w: Message, s: State)
    requires Reaches(Filled(v, w), s)
    ensures Reaches(TwoSends(v, w), s)
  {
    var s0 := TwoSends(v, w);
    var s1 := Apply(s0, Outside(StartThread(0)));
    var s2 := Apply(s1, SenderStep(0));
    assert [] + [Copy(2, 0)] == [Copy(2, 0)];
    assert Apply(s2, Outside(Spawn(1))) == Filled(v, w);
    ReachesByStep(s2, Outside(Spawn(1)), s);
    ReachesByStep(s1, SenderStep(0), s);
    ReachesByStep(s0, Outside(StartThread(0)), s);
  }

  /** The only executor polls that task, which sends as well; then the receiver is spawned, and waits. */
  function Stuck(v: Message, w: Message): State {
    Filled(v, w).(d := Dispatcher([Copy(0, 0)], [], map[0 := []]), turns := [Sending(1)],
                  senders := [Sender(AtCount, v), Sender(AtSend, w)], started := true)
  }

  function SendBegun(v: Message, w: Message): State {
    Stuck(v, w).(d := Dispatcher([], [], map[0 := []]), started := false)
  }

  lemma ExecutorSends(v: Message, w: Message, s: State)
    requires Reaches(SendBegun(v, w), s)
    ensures Reaches(Filled(v, w), s)
  {
    var s0 := Filled(v, w);
    var s1 := Apply(s0, TurnStep(0));
    assert s1 == s0.(d := Dispatcher([], [], map[0 := []]), turns := [Got(2)]);
    assert Apply(s1, TurnStep(0)) == SendBegun(v, w);
    ReachesByStep(s1, TurnStep(0), s);
    ReachesByStep(s0, TurnStep(0), s);
  }

  lemma ReceiverComesLate(v: Message, w: Message)
    ensures Reaches(SendBegun(v, w), Stuck(v, w))
  {
    assert [] + [Copy(0, 0)] == [Copy(0, 0)];
    assert Apply(SendBegun(v, w), Outside(SpawnReceiver)) == Stuck(v, w);
    ReachesItself(Stuck(v, w));
    ReachesByStep(SendBegun(v, w), Outside(SpawnReceiver), Stuck(v, w));
  }

  lemma StuckIsJammed(v: Message, w: Message)
    ensures Jammed(Stuck(v, w))
  {
  }

  /** A jam can happen: two sends, one place, one executor. */
  lemma JammedRunExists(v: Message, w: Message)
    ensures Initial(TwoSends(v, w)) && Reaches(TwoSends(v, w), Stuck(v, w))
    ensures Jammed(Stuck(v, w)) && Stuck(v, w).wanted > 0
  {
    var s := Stuck(v, w);
    StuckIsJammed(v, w);
    ReceiverComesLate(v, w);
    ExecutorSends(v, w, s);
    ChannelFills(v, w, s);
  }

  /** A channel with a place for each sender is never jammed. */
  lemma RoomPreventsJam(s: State, total: nat)
    requires Base(s) && Accounts(s, total) && |s.turns| > 0 && |s.senders| <= s.channel.bound
    ensures !Jammed(s)
  {
    assert |s.channel.received + s.channel.hand + s.channel.queue| == |s.channel.sent|;
    if Held(s, 0) {
      var i := if s.turns[0].Sending? then s.turns[0].sender else s.turns[0].task - 1;
      SenderSumUpdate(Unsent, s.senders, i, s.senders[i]);
    }
  }

  lemma StepKeepsLaunched(s: State, step: Step)
    requires Enabled(s, step) && Internal(step)
    ensures var s' := Apply(s, step);
            && s'.started == s.started && |s'.senders| == |s.senders|
            && (forall i :: 0 <= i < |s.senders| && s'.senders[i].phase.NotLaunched? ==> s.senders[i].phase.NotLaunched?)
  {
  }

  lemma StepKeepsClosed(s: State, step: Step, total: nat)
    requires Closed(s, total) && Enabled(s, step) && Internal(step)
    ensures Closed(Apply(s, step), total)
  {
    StepKeepsInv(s, step);
    AtomicStepStaysAtomic(s, step);
    StepKeepsAccounts(s, step, total);
    StepKeepsPending(s, step);
    StepKeepsLaunched(s, step);
    StepKeepsShape(s, step);
  }

  // ---------------------------------------------------------------------------
  // Delivery

  predicate AllInternal(steps: seq<Step>) {
    forall i :: 0 <= i < |steps| ==> Internal(steps[i])
  }

  /** An internal run has no more steps than the rank it starts from, and ends with all received or a jam. */
  lemma {:induction false} InternalRunsEnd(s: State, steps: seq<Step>, total: nat)
    requires Closed(s, total) && Runs(s, steps) && AllInternal(steps)
    ensures |steps| + Rank(After(s, steps)) <= Rank(s)
    ensures Closed(After(s, steps), total)
    ensures (forall step :: Internal(step) ==> !Enabled(After(s, steps), step)) ==>
              After(s, steps).wanted == 0 || Jammed(After(s, steps))
    decreases |steps|
  {
    if steps == [] {
      if s.wanted > 0 && !Jammed(s) {
        var step := SomeStepIsEnabled(s, total);
      }
    } else {
      assert Internal(steps[0]);
      StepKeepsClosed(s, steps[0], total);
      StepLowersRank(s, steps[0]);
      InternalRunsEnd(Apply(s, steps[0]), steps[1..], total);
    }
  }

  lemma {:induction false} RunKeepsAccounts(s: State, steps: seq<Step>, total: nat)
    requires Base(s) && Accounts(s, total) && Runs(s, steps)
    ensures Accounts(After(s, steps), total)
    decreases |steps|
  {
    if steps != [] {
      StepKeepsInv(s, steps[0]);
      StepKeepsAccounts(s, steps[0], total);
      RunKeepsAccounts(Apply(s, steps[0]), steps[1..], total);
    }
  }

  lemma {:induction false} AllUnsent(senders: seq<Sender>)
    requires forall i :: 0 <= i < |senders| ==> senders[i].phase == NotLaunched
    ensures SenderSum(Unsent, senders) == |senders|
  {
    if senders != [] {
      AllUnsent(senders[1..]);
    }
  }

  /** In every reachable state, values received are at most those wanted, in the order sent, each sent by some sender. */
  lemma ReceivesAddUp(s0: State, steps: seq<Step>)
    requires Initial(s0) && Runs(s0, steps)
    ensures var s := After(s0, steps);
            && Accounts(s, s0.wanted)
            && |s.channel.received| <= s0.wanted
            && s.channel.received <= s.channel.sent
  {
    InitialHasInv(s0);
    AllUnsent(s0.senders);
    RunKeepsAccounts(s0, steps, s0.wanted);
    RunKeepsBase(s0, steps);
    ReceivedIsSent(After(s0, steps));
  }

  predicate SameShape(s: State, s': State) {
    && |s'.turns| == |s.turns| && |s'.senders| == |s.senders| && s'.channel.bound == s.channel.bound
    && (forall i :: 0 <= i < |s.senders| ==> s'.senders[i].value == s.senders[i].value)
  }

  lemma {:induction false} RunKeepsShape(s: State, steps: seq<Step>)
    requires Runs(s, steps)
    ensures SameShape(s, After(s, steps))
    decreases |steps|
  {
    if steps != [] {
      StepKeepsShape(s, steps[0]);
      RunKeepsShape(Apply(s, steps[0]), steps[1..]);
    }
  }

  lemma TurnKeepsShape(s: State, e: nat)
    requires TurnEnabled(s, e)
    ensures SameShape(s, ApplyTurn(s, e))
  {
  }

  lemma StepKeepsShape(s: State, step: Step)
    requires Enabled(s, step)
    ensures SameShape(s, Apply(s, step))
  {
    match step
    case TurnStep(e) => TurnKeepsShape(s, e);
    case _ =>
  }

  lemma ReceivedIsSent(s: State)
    requires s.channel.sent == s.channel.received + s.channel.hand + s.channel.queue
    ensures s.channel.received <= s.channel.sent
  {
  }

  lemma UnderWayIsClosed(s0: State, steps: seq<Step>)
    requires Initial(s0) && |s0.turns| > 0 && s0.wanted <= |s0.senders| && s0.channel.bound > 0
    requires Runs(s0, steps) && Atomic(steps) && UnderWay(After(s0, steps))
    ensures Closed(After(s0, steps), s0.wanted)
  {
    AtomicRunKeepsInv(s0, steps);
    ReceivesAddUp(s0, steps);
    RunKeepsShape(s0, steps);
  }

  /** Two runs, one after the other. */
  lemma {:induction false} RunsConcat(s: State, a: seq<Step>, b: seq<Step>)
    requires Runs(s, a) && Runs(After(s, a), b)
    ensures Runs(s, a + b) && After(s, a + b) == After(After(s, a), b)
    decreases |a|
  {
    if a == [] {
      assert a + b == b;
    } else {
      RunsConcat(Apply(s, a[0]), a[1..], b);
      assert (a + b)[1..] == a[1..] + b;
    }
  }

  /**
   Whatever happened before, any further run has at most `Rank` steps of the chain and 24 for
   each event. Where all is under way and the receiver still wants a message, a step of the
   chain can be taken, or the chain is jammed.
   */
  lemma Delivery(s0: State, before: seq<Step>, steps: seq<Step>)
    requires Initial(s0) && |s0.turns| > 0 && s0.wanted <= |s0.senders| && s0.channel.bound > 0
    requires Runs(s0, before) && Runs(After(s0, before), steps) && Atomic(before + steps)
    ensures var s1 := After(s0, before);
            var s := After(s1, steps);
            && |steps| + Rank(s) <= Rank(s1) + 25 * Events(steps)
            && Accounts(s, s0.wanted)
            && s.channel.received <= s.channel.sent
            && (UnderWay(s) && s.wanted > 0 ==> Jammed(s) || exists step :: Internal(step) && Enabled(s, step))
            && (UnderWay(s1) && AllInternal(steps) ==> UnderWay(s))
  {
    var s1 := After(s0, before);
    var s := After(s1, steps);
    RunsConcat(s0, before, steps);
    InitialHasInv(s0);
    RunKeepsBase(s0, before);
    RunsAreBounded(s1, steps);
    ReceivesAddUp(s0, before + steps);
    if UnderWay(s) && s.wanted > 0 && !Jammed(s) {
      UnderWayIsClosed(s0, before + steps);
      var step := SomeStepIsEnabled(s, s0.wanted);
    }
    if UnderWay(s1) && AllInternal(steps) {
      InternalRunsStayUnderWay(s1, steps);
    }
  }

  lemma {:induction false} InternalRunsStayUnderWay(s: State, steps: seq<Step>)
    requires Base(s) && UnderWay(s) && Runs(s, steps) && AllInternal(steps)
    ensures UnderWay(After(s, steps))
    decreases |steps|
  {
    if steps != [] {
      assert Internal(steps[0]);
      StepKeepsInv(s, steps[0]);
      StepKeepsPending(s, steps[0]);
      StepKeepsLaunched(s, steps[0]);
      InternalRunsStayUnderWay(Apply(s, steps[0]), steps[1..]);
    }
  }

  /**
   A join handle: one sender, the spawned task; a channel for one message; one receive.
   Once both tasks are launched, every run ends with the handle resolved, once, with that
   task's own value.
   */
  lemma JoinHandleResolves(s0: State, before: seq<Step>, steps: seq<Step>)
    requires Initial(s0) && |s0.turns| > 0 && |s0.senders| == 1 && s0.channel.bound == 1 && s0.wanted == 1
    requires Runs(s0, before) && Runs(After(s0, before), steps) && Atomic(before + steps)
    ensures var s1 := After(s0, before);
            var s := After(s1, steps);
            && |steps| + Rank(s) <= Rank(s1) + 25 * Events(steps)
            && (s.wanted > 0 ==> s.channel.received == [])
            && (s.wanted > 0 && UnderWay(s) ==> exists step :: Internal(step) && Enabled(s, step))
            && (s.wanted == 0 ==> s.channel.received == [s0.senders[0].value])
            && (UnderWay(s1) && AllInternal(steps) ==> UnderWay(s))
  {
    Delivery(s0, before, steps);
    RunsConcat(s0, before, steps);
    RunKeepsShape(s0, before + steps);
    InitialHasInv(s0);
    RunKeepsBase(s0, before + steps);
    var s := After(After(s0, before), steps);
    RoomPreventsJam(s, 1);
    if s.wanted == 0 {
      OnlyValue(s, s0.senders[0].value);
    }
  }

  lemma OnlyValue(s: State, v: Message)
    requires Accounts(s, 1) && s.wanted == 0 && s.channel.received <= s.channel.sent
    requires |s.senders| == 1 && s.senders[0].value == v
    ensures s.channel.received == [v]
  {
    assert s.channel.received[0] == s.channel.sent[0];
    assert IsValueOf(s.senders, s.channel.sent[0]);
  }

  lemma SpawnTakesRoom(s: State, x: Event)
    requires Base(s) && EventEnabled(s, x) && (x.SpawnReceiver? || x.Spawn?)
    ensures Base(ApplyEvent(s, x)) && |ApplyEvent(s, x).d.waitingTasks| <= |s.d.waitingTasks| + 1
    ensures ApplyEvent(s, x).reactor == s.reactor
  {
    EventKeepsInv(s, x);
    SubmitRank(s.d, |s.turns|, Busy(s.turns), Copy(if x.Spawn? then x.sender + 1 else RECEIVER, 0));
  }

  lemma SecondSpawn(s: State)
    requires Base(s) && s.started && |s.senders| == 1 && s.senders[0].phase.NotLaunched?
    requires s.reactor == Reactor([], false, Waiting, false) && |s.d.waitingTasks| <= 1
    ensures EventEnabled(s, Spawn(0)) && UnderWay(ApplyEvent(s, Spawn(0)))
  {
    SpawnTakesRoom(s, Spawn(0));
    var s' := ApplyEvent(s, Spawn(0));
    assert s'.senders == [Sender(Launched, s.senders[0].value)];
    assert SenderSum(Untagged, s'.senders) == 1 + SenderSum(Untagged, []);
  }

  lemma FirstSpawn(s: State)
    requires Initial(s) && |s.turns| > 0
    ensures EventEnabled(s, SpawnReceiver)
    ensures var s' := ApplyEvent(s, SpawnReceiver);
            && Base(s') && s'.started && s'.senders == s.senders
            && s'.reactor == Reactor([], false, Waiting, false) && |s'.d.waitingTasks| <= 1
  {
    InitialHasInv(s);
    SpawnTakesRoom(s, SpawnReceiver);
  }

  lemma OneStep(s: State, step: Step)
    requires Enabled(s, step)
    ensures Runs(s, [step]) && After(s, [step]) == Apply(s, step)
  {
    var s' := Apply(s, step);
    assert [step][1..] == [];
    assert Runs(s', []) && After(s', []) == s';
  }

  lemma TwoSteps(s: State, first: Step, second: Step)
    requires Enabled(s, first) && Enabled(Apply(s, first), second)
    ensures Runs(s, [first, second]) && After(s, [first, second]) == Apply(Apply(s, first), second)
  {
    var s1 := Apply(s, first);
    assert [first, second][1..] == [second];
    OneStep(s1, second);
  }

  /** Spawning both tasks puts a join handle under way. */
  lemma JoinHandleStarts(s0: State)
    requires Initial(s0) && |s0.turns| > 0 && |s0.senders| == 1
    ensures var spawns := [Outside(SpawnReceiver), Outside(Spawn(0))];
            Runs(s0, spawns) && Atomic(spawns) && UnderWay(After(s0, spawns))
  {
    FirstSpawn(s0);
    SecondSpawn(ApplyEvent(s0, SpawnReceiver));
    TwoSteps(s0, Outside(SpawnReceiver), Outside(Spawn(0)));
  }
}
