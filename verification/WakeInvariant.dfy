/**
 What every run of the wake-up chain keeps: the counter law of the channel, and that a
 receiver whose waker is stored is never forgotten.
 */
module WakeInvariant {
  import opened Dispatching
  import opened WakeChain

  // ---------------------------------------------------------------------------
  // The invariant

  function Busy(turns: seq<Turn>): set<ExecutorId> {
    set e: ExecutorId | 0 <= e < |turns| && turns[e] != Idle
  }

  /** A copy of the task waits, or is in the channel of an executor. */
  predicate Queued(d: Dispatcher, t: TaskId) {
    || (exists i :: 0 <= i < |d.waitingTasks| && d.waitingTasks[i].task == t)
    || (exists e :: e in d.channels && d.channels[e] != [] && d.channels[e][0].task == t)
  }

  predicate HasTurn(turns: seq<Turn>, turn: Turn) {
    exists e :: 0 <= e < |turns| && turns[e] == turn
  }

  /** A copy of the task is on its way to a poll. */
  predicate InFlight(s: State, t: TaskId) {
    Queued(s.d, t) || HasTurn(s.turns, Got(t))
  }

  /** Task 0 is being polled or will be. */
  predicate Active(s: State) {
    InFlight(s, RECEIVER) || exists e :: 0 <= e < |s.turns| && Receives(s.turns[e])
  }

  predicate SomeSender(s: State, phase: SenderPhase) {
    exists i :: 0 <= i < |s.senders| && s.senders[i].phase == phase
  }

  /** A send past its count that the reactor has yet to act on. */
  predicate Signal(s: State) {
    SomeSender(s, AtTag) || true in s.reactor.tags || s.reactor.phase == Holding(true)
  }

  /** How many senders are between the send of the value and the increment of the count. */
  function Uncounted(senders: seq<Sender>): nat {
    if senders == [] then 0 else (if senders[0].phase.AtCount? then 1 else 0) + Uncounted(senders[1..])
  }

  /** The counter law, and order. */
  predicate ChannelInv(s: State) {
    && s.channel.count >= 0
    && s.channel.count + Uncounted(s.senders) == |s.channel.queue| + |s.channel.hand|
    && s.channel.received + s.channel.hand + s.channel.queue == s.channel.sent
  }

  /** Task 0 is polled by one executor at a time, the task of a sender is too, and counts match phases. */
  predicate TurnInv(s: State) {
    && (forall d, e :: 0 <= d < e < |s.turns| ==> !(Receives(s.turns[d]) && Receives(s.turns[e])))
    && (forall e {:trigger s.turns[e]} :: 0 <= e < |s.turns| ==>
          match s.turns[e]
          case AtTake => s.channel.count > 0 && s.channel.hand == [] && s.wanted > 0
          case AtDecrement => s.channel.count > 0 && |s.channel.hand| == 1 && s.wanted > 0
          case AtRecv => s.channel.hand == [] && s.wanted > 0
          case AtStore => s.channel.hand == [] && s.wanted > 0
          case Sending(i) => i < |s.senders| && !s.senders[i].phase.NotLaunched? && !s.senders[i].phase.Launched?
          case _ => true)
    && (s.channel.hand != [] ==> HasTurn(s.turns, AtDecrement))
  }

  /** A buffered tag has its mio wake behind it or ahead of it. */
  predicate TagInv(s: State) {
    true in s.reactor.tags ==> s.reactor.woken || !s.reactor.phase.Waiting? || SomeSender(s, AtWake)
  }

  predicate LaunchInv(s: State) {
    forall i :: 0 <= i < |s.senders| && s.senders[i].phase.Launched? ==> InFlight(s, i + 1)
  }

  /** A receiver that still wants messages is at work, or its waker is stored and any counted message has a signal. */
  predicate NotForgotten(s: State) {
    s.started && s.wanted > 0 ==> Active(s) || (s.reactor.stored && (s.channel.count == 0 || Signal(s)))
  }

  /** What every step keeps, whenever the waker is stored. */
  ghost predicate Base(s: State) {
    && |s.turns| <= EXECUTOR_CAPACITY
    && Sound(s.d, |s.turns|, Busy(s.turns))
    && ChannelInv(s)
    && TurnInv(s)
    && TagInv(s)
    && LaunchInv(s)
  }

  /** What every step keeps that does not store the waker too late. */
  ghost predicate Inv(s: State) {
    Base(s) && NotForgotten(s)
  }

  ghost predicate Keeps(s: State, s': State) {
    Base(s') && (NotForgotten(s) ==> NotForgotten(s'))
  }

  // ---------------------------------------------------------------------------
  // The task manager keeps copies in flight

  lemma SubmitQueues(d: Dispatcher, n: nat, busy: set<ExecutorId>, c: Copy)
    requires Sound(d, n, busy)
    requires d.waitingExecutors != [] || |d.waitingTasks| < TASK_CAPACITY
    ensures var d' := SubmitCall(d, {}, c).0;
            && Sound(d', n, busy)
            && Queued(d', c.task)
            && forall t :: Queued(d, t) ==> Queued(d', t)
  {
    SubmitKeepsSound(d, n, busy, {}, c);
    var d' := SubmitCall(d, {}, c).0;
    if d.waitingExecutors != [] {
      var x := d.waitingExecutors[0];
      assert d'.channels[x] == [c];
      forall t | Queued(d, t)
        ensures Queued(d', t)
      {
        var e :| e in d.channels && d.channels[e] != [] && d.channels[e][0].task == t;
        assert d'.channels[e] == d.channels[e];
      }
    } else {
      assert d'.waitingTasks[|d.waitingTasks|] == c;
      forall t | Queued(d, t)
        ensures Queued(d', t)
      {
        if i :| 0 <= i < |d.waitingTasks| && d.waitingTasks[i].task == t {
          assert d'.waitingTasks[i] == d.waitingTasks[i];
        }
      }
    }
  }

  lemma ReadyQueues(d: Dispatcher, n: nat, busy: set<ExecutorId>, x: ExecutorId)
    requires Sound(d, n, busy) && x in busy && n <= EXECUTOR_CAPACITY
    ensures var d' := ReadyCall(d, {}, x).0;
            && Sound(d', n, busy - {x})
            && forall t :: Queued(d, t) ==> Queued(d', t)
  {
    ReadyKeepsSound(d, n, busy, {}, x);
    var d' := ReadyCall(d, {}, x).0;
    forall t | Queued(d, t)
      ensures Queued(d', t)
    {
      if i :| 0 <= i < |d.waitingTasks| && d.waitingTasks[i].task == t {
        if i == 0 {
          assert d'.channels[x] == [d.waitingTasks[0]];
        } else {
          assert d'.waitingTasks[i - 1] == d.waitingTasks[i];
        }
      } else {
        var e :| e in d.channels && d.channels[e] != [] && d.channels[e][0].task == t;
        assert d'.channels[e] == d.channels[e];
      }
    }
  }

  lemma ReceiveQueues(d: Dispatcher, n: nat, busy: set<ExecutorId>, x: ExecutorId)
    requires Sound(d, n, busy) && x in d.channels && d.channels[x] != []
    ensures var d' := ReceiveCall(d, x);
            && Sound(d', n, busy + {x}) && x !in busy
            && forall t :: Queued(d, t) ==> Queued(d', t) || t == d.channels[x][0].task
  {
    ReceiveKeepsSound(d, n, busy, x);
    var d' := ReceiveCall(d, x);
    forall t | Queued(d, t) && t != d.channels[x][0].task
      ensures Queued(d', t)
    {
      if i :| 0 <= i < |d.waitingTasks| && d.waitingTasks[i].task == t {
        assert d'.waitingTasks[i].task == t;
      } else {
        var e :| e in d.channels && d.channels[e] != [] && d.channels[e][0].task == t;
        assert d'.channels[e] == d.channels[e];
      }
    }
  }

  lemma SubmitKeepsFlights(s: State, t: TaskId)
    requires Sound(s.d, |s.turns|, Busy(s.turns)) && CanSubmit(s)
    ensures var s' := Submit(s, t);
            && Sound(s'.d, |s'.turns|, Busy(s'.turns))
            && InFlight(s', t)
            && (forall u :: InFlight(s, u) ==> InFlight(s', u))
            && (Active(s) ==> Active(s'))
  {
    SubmitQueues(s.d, |s.turns|, Busy(s.turns), Copy(t, 0));
  }

  // ---------------------------------------------------------------------------
  // Senders

  lemma {:induction false} UncountedUpdate(senders: seq<Sender>, i: nat, x: Sender)
    requires i < |senders|
    ensures Uncounted(senders[i := x]) + (if senders[i].phase.AtCount? then 1 else 0)
         == Uncounted(senders) + (if x.phase.AtCount? then 1 else 0)
  {
    if i > 0 {
      UncountedUpdate(senders[1..], i - 1, x);
      assert senders[i := x][1..] == senders[1..][i - 1 := x];
    }
  }

  lemma SenderKeepsSignals(s: State, i: nat)
    requires SenderEnabled(s, i)
    ensures var s' := ApplySender(s, i);
            && (Signal(s) ==> Signal(s'))
            && (TagInv(s) ==> TagInv(s'))
            && (s'.channel.count != s.channel.count ==> Signal(s'))
  {
    var s' := ApplySender(s, i);
    assert s'.senders[i].phase != s.senders[i].phase;
    forall phase | SomeSender(s, phase) && phase != s.senders[i].phase
      ensures SomeSender(s', phase)
    {
      var j :| 0 <= j < |s.senders| && s.senders[j].phase == phase;
      assert s'.senders[j] == s.senders[j];
    }
    if s.senders[i].phase.AtTag? {
      assert s'.reactor.tags[|s.reactor.tags|] == true;
    }
    assert forall b :: b in s.reactor.tags ==> b in s'.reactor.tags;
  }

  lemma SenderKeepsChannel(s: State, i: nat)
    requires ChannelInv(s) && SenderEnabled(s, i)
    ensures ChannelInv(ApplySender(s, i))
  {
    var s' := ApplySender(s, i);
    UncountedUpdate(s.senders, i, s'.senders[i]);
    if s.senders[i].phase.AtSend? {
      assert s'.channel.received + s'.channel.hand + s'.channel.queue
          == s.channel.received + s.channel.hand + s.channel.queue + [s.senders[i].value];
    }
  }

  lemma SenderKeepsInv(s: State, i: nat)
    requires Base(s) && SenderEnabled(s, i)
    ensures Keeps(s, ApplySender(s, i))
  {
    var s' := ApplySender(s, i);
    SenderKeepsChannel(s, i);
    SenderKeepsSignals(s, i);
    assert s'.turns == s.turns && s'.d == s.d;
    forall j | 0 <= j < |s'.senders| && s'.senders[j].phase.Launched?
      ensures InFlight(s', j + 1)
    {
      assert s.senders[j].phase.Launched?;
    }
  }

  // ---------------------------------------------------------------------------
  // The reactor

  lemma DrainKeepsInv(s: State)
    requires Base(s) && ReactorEnabled(s) && !s.reactor.phase.Holding?
    ensures Keeps(s, ApplyReactor(s))
  {
    var s' := ApplyReactor(s);
    assert s'.turns == s.turns && s'.d == s.d;
    if s.reactor.phase.Draining? && s.reactor.tags != [] {
      assert s.reactor.tags == [s.reactor.tags[0]] + s'.reactor.tags;
    }
  }

  /** The reactor is done with a tag; if that wakes task 0, a copy of it is in flight. */
  lemma WakeKeepsInv(s: State)
    requires Base(s) && ReactorEnabled(s) && s.reactor.phase.Holding?
    ensures Keeps(s, ApplyReactor(s))
  {
    var s1 := s.(reactor := s.reactor.(phase := Draining));
    assert s1.turns == s.turns && s1.d == s.d && Base(s1);
    if s.reactor.phase.ours && s.reactor.stored {
      SubmitKeepsInv(s1, RECEIVER);
    }
  }

  lemma ReactorKeepsInv(s: State)
    requires Base(s) && ReactorEnabled(s)
    ensures Keeps(s, ApplyReactor(s))
  {
    if s.reactor.phase.Holding? {
      WakeKeepsInv(s);
    } else {
      DrainKeepsInv(s);
    }
  }

  // ---------------------------------------------------------------------------
  // Events from outside

  lemma SubmitKeepsInv(s: State, t: TaskId)
    requires Base(s) && CanSubmit(s)
    ensures Keeps(s, Submit(s, t)) && InFlight(Submit(s, t), t)
  {
    SubmitKeepsFlights(s, t);
  }

  lemma EventKeepsInv(s: State, x: Event)
    requires Base(s) && EventEnabled(s, x)
    ensures Keeps(s, ApplyEvent(s, x))
  {
    match x
    case SpawnReceiver => StartKeepsInv(s);
    case Spawn(i) => SpawnKeepsInv(s, i);
    case StartThread(i) => LaunchKeepsInv(s, i, AtSend);
    case Wake(t) => SubmitKeepsInv(s, t);
    case OtherTag =>
      var s' := ApplyEvent(s, x);
      assert s'.turns == s.turns && s'.d == s.d;
      assert true in s'.reactor.tags <==> true in s.reactor.tags;
    case OtherRing =>
      var s' := ApplyEvent(s, x);
      assert s'.turns == s.turns && s'.d == s.d;
  }

  /** What an event is for: a copy in flight, a send begun, a tag, a mio wake. */
  lemma EventTakesEffect(s: State, x: Event)
    requires Base(s) && EventEnabled(s, x)
    ensures var s' := ApplyEvent(s, x);
            match x
            case SpawnReceiver => s'.started && InFlight(s', RECEIVER)
            case Spawn(i) => s'.senders[i].phase.Launched? && InFlight(s', i + 1)
            case StartThread(i) => s'.senders[i].phase.AtSend?
            case Wake(t) => InFlight(s', t)
            case OtherTag => s'.reactor.tags == s.reactor.tags + [false]
            case OtherRing => s'.reactor.woken
  {
    match x
    case SpawnReceiver => SubmitKeepsFlights(s.(started := true), RECEIVER);
    case Spawn(i) =>
      LaunchKeepsFlights(s, i);
      SubmitKeepsFlights(SetSender(s, i, Launched), i + 1);
    case Wake(t) => SubmitKeepsFlights(s, t);
    case _ =>
  }

  lemma LaunchKeepsFlights(s: State, i: nat)
    requires i < |s.senders|
    ensures SetSender(s, i, Launched).d == s.d && SetSender(s, i, Launched).turns == s.turns
  {
  }

  lemma StartKeepsInv(s: State)
    requires Base(s) && EventEnabled(s, SpawnReceiver)
    ensures Keeps(s, ApplyEvent(s, SpawnReceiver))
  {
    var s1 := s.(started := true);
    SubmitKeepsFlights(s1, RECEIVER);
    forall i | 0 <= i < |s.senders| && s.senders[i].phase.Launched?
      ensures InFlight(s1, i + 1)
    {
      assert InFlight(s, i + 1);
    }
  }

  /** A sender moves between phases that no signal depends on. */
  lemma PhaseKeepsSignals(s: State, i: nat, phase: SenderPhase)
    requires i < |s.senders| && (s.senders[i].phase.NotLaunched? || s.senders[i].phase.Launched?)
    requires phase.Launched? || phase.AtSend?
    ensures var s' := SetSender(s, i, phase);
            && Uncounted(s'.senders) == Uncounted(s.senders)
            && (Signal(s) ==> Signal(s')) && (TagInv(s) ==> TagInv(s'))
  {
    var s' := SetSender(s, i, phase);
    UncountedUpdate(s.senders, i, s'.senders[i]);
    if j :| 0 <= j < |s.senders| && s.senders[j].phase == AtTag {
      assert s'.senders[j] == s.senders[j];
    }
    if j :| 0 <= j < |s.senders| && s.senders[j].phase == AtWake {
      assert s'.senders[j] == s.senders[j];
    }
  }

  lemma LaunchKeepsInv(s: State, i: nat, phase: SenderPhase)
    requires Base(s) && i < |s.senders| && (s.senders[i].phase.NotLaunched? || s.senders[i].phase.Launched?)
    requires phase.AtSend? || (phase.Launched? && InFlight(s, i + 1))
    ensures Keeps(s, SetSender(s, i, phase))
  {
    var s' := SetSender(s, i, phase);
    PhaseKeepsSignals(s, i, phase);
    assert s'.d == s.d && s'.turns == s.turns;
    forall j | 0 <= j < |s'.senders| && s'.senders[j].phase.Launched?
      ensures InFlight(s', j + 1)
    {
      assert InFlight(s, j + 1);
    }
    assert Active(s) ==> Active(s');
  }

  lemma SpawnKeepsInv(s: State, i: nat)
    requires Base(s) && EventEnabled(s, Spawn(i))
    ensures Keeps(s, ApplyEvent(s, Spawn(i)))
  {
    SubmitKeepsInv(s, i + 1);
    LaunchKeepsInv(Submit(s, i + 1), i, Launched);
  }

  // ---------------------------------------------------------------------------
  // Turns of executors

  lemma BusyUpdate(turns: seq<Turn>, e: nat, turn: Turn)
    requires e < |turns|
    ensures Busy(turns[e := turn]) == if turn == Idle then Busy(turns) - {e} else Busy(turns) + {e}
  {
  }

  /** Changing one turn loses no other. */
  lemma OtherTurnsStay(s: State, s': State, e: nat, turn: Turn)
    requires e < |s.turns| && s'.turns == s.turns[e := turn]
    ensures forall x :: HasTurn(s.turns, x) && x != s.turns[e] ==> HasTurn(s'.turns, x)
    ensures HasTurn(s'.turns, turn)
    ensures (exists d :: 0 <= d < |s.turns| && Receives(s.turns[d])) && !Receives(s.turns[e]) ==>
              exists d :: 0 <= d < |s'.turns| && Receives(s'.turns[d])
    ensures Receives(turn) ==> exists d :: 0 <= d < |s'.turns| && Receives(s'.turns[d])
  {
    forall x | HasTurn(s.turns, x) && x != s.turns[e]
      ensures HasTurn(s'.turns, x)
    {
      var d :| 0 <= d < |s.turns| && s.turns[d] == x;
      assert s'.turns[d] == x;
    }
    assert s'.turns[e] == turn;
    if d :| 0 <= d < |s.turns| && Receives(s.turns[d]) && !Receives(s.turns[e]) {
      assert s'.turns[d] == s.turns[d];
    }
  }

  /** A turn that neither takes nor gives up a copy or a poll. */
  lemma QuietTurn(s: State, s': State, e: nat, turn: Turn)
    requires e < |s.turns| && s'.turns == s.turns[e := turn] && s'.d == s.d
    ensures forall t :: InFlight(s, t) && s.turns[e] != Got(t) ==> InFlight(s', t)
    ensures Active(s) && !Receives(s.turns[e]) && s.turns[e] != Got(RECEIVER) ==> Active(s')
    ensures Receives(turn) ==> Active(s')
  {
    OtherTurnsStay(s, s', e, turn);
  }

  /** A turn ends or rests, outside a poll of task 0 that holds a value. */
  lemma RestKeepsTurns(s: State, s': State, e: nat, turn: Turn)
    requires TurnInv(s) && e < |s.turns| && !s.turns[e].AtDecrement? && (turn.Idle? || turn.Got? || turn.Done?)
    requires s'.turns == s.turns[e := turn]
    requires s'.channel == s.channel && s'.senders == s.senders && s'.wanted == s.wanted
    ensures TurnInv(s')
  {
    OtherTurnsStay(s, s', e, turn);
  }

  lemma ReceiveKeepsInv(s: State, e: nat)
    requires Base(s) && TurnEnabled(s, e) && s.turns[e].Idle?
    ensures Keeps(s, ApplyTurn(s, e))
  {
    var s' := ApplyTurn(s, e);
    var t := s.d.channels[e][0].task;
    ReceiveQueues(s.d, |s.turns|, Busy(s.turns), e);
    BusyUpdate(s.turns, e, Got(t));
    RestKeepsTurns(s, s', e, Got(t));
    OtherTurnsStay(s, s', e, Got(t));
    forall u | InFlight(s, u)
      ensures InFlight(s', u)
    {
    }
    assert Active(s) ==> Active(s');
  }

  /** All stays in flight and in a poll. */
  lemma FlightsStay(s: State, s': State)
    requires forall t :: Queued(s.d, t) ==> Queued(s'.d, t)
    requires forall t :: HasTurn(s.turns, Got(t)) ==> HasTurn(s'.turns, Got(t))
    requires (exists d :: 0 <= d < |s.turns| && Receives(s.turns[d])) ==>
               exists d :: 0 <= d < |s'.turns| && Receives(s'.turns[d])
    ensures forall t :: InFlight(s, t) ==> InFlight(s', t)
    ensures Active(s) ==> Active(s')
  {
  }

  lemma ReportKeepsInv(s: State, e: nat)
    requires Base(s) && TurnEnabled(s, e) && s.turns[e].Done?
    ensures Keeps(s, ApplyTurn(s, e))
  {
    var s' := ApplyTurn(s, e);
    assert e in Busy(s.turns);
    ReadyQueues(s.d, |s.turns|, Busy(s.turns), e);
    BusyUpdate(s.turns, e, Idle);
    RestKeepsTurns(s, s', e, Idle);
    OtherTurnsStay(s, s', e, Idle);
    FlightsStay(s, s');
  }

  /** An executor has the lock of a future and polls it, or finds nothing to do. */
  lemma LockedTurnKeepsInv(s: State, e: nat, turn: Turn)
    requires Base(s) && e < |s.turns| && s.turns[e].Got?
    requires forall i :: 0 <= i < |s.senders| && s.senders[i].phase.Launched? ==> s.turns[e] != Got(i + 1)
    requires match turn
             case AtRecv => s.wanted > 0 && ReceiverFree(s)
             case Sending(i) => i < |s.senders| && s.senders[i].phase.AtSend? && s.turns[e] == Got(i + 1)
             case Done => s.turns[e] == Got(RECEIVER) ==> s.wanted == 0
             case _ => false
    ensures Keeps(s, SetTurn(s, e, turn))
  {
    var s' := SetTurn(s, e, turn);
    BusyUpdate(s.turns, e, turn);
    QuietTurn(s, s', e, turn);
    OtherTurnsStay(s, s', e, turn);
    forall i | 0 <= i < |s'.senders| && s'.senders[i].phase.Launched?
      ensures InFlight(s', i + 1)
    {
      assert InFlight(s, i + 1);
    }
  }

  lemma BeginKeepsInv(s: State, e: nat)
    requires Base(s) && TurnEnabled(s, e) && s.turns[e].Got?
    ensures Keeps(s, ApplyTurn(s, e))
  {
    var t := s.turns[e].task;
    if t != RECEIVER && t <= |s.senders| && s.senders[t - 1].phase.Launched? {
      LaunchKeepsInv(s, t - 1, AtSend);
      LockedTurnKeepsInv(SetSender(s, t - 1, AtSend), e, Sending(t - 1));
    } else {
      LockedTurnKeepsInv(s, e, if t == RECEIVER && s.wanted > 0 then AtRecv else Done);
    }
  }

  /** Between its lock and its release, the poll of task 0 keeps the invariant. */
  lemma LoadKeepsInv(s: State, e: nat)
    requires Base(s) && TurnEnabled(s, e) && s.turns[e].AtRecv?
    ensures Keeps(s, ApplyTurn(s, e))
  {
    var s' := ApplyTurn(s, e);
    BusyUpdate(s.turns, e, s'.turns[e]);
    assert s'.turns == s.turns[e := s'.turns[e]];
    QuietTurn(s, s', e, s'.turns[e]);
    OtherTurnsStay(s, s', e, s'.turns[e]);
  }

  lemma TakeKeepsInv(s: State, e: nat)
    requires Base(s) && TurnEnabled(s, e) && s.turns[e].AtTake?
    ensures Keeps(s, ApplyTurn(s, e))
  {
    var s' := ApplyTurn(s, e);
    BusyUpdate(s.turns, e, AtDecrement);
    QuietTurn(s, s', e, AtDecrement);
    OtherTurnsStay(s, s', e, AtDecrement);
    assert s.channel.queue == [s.channel.queue[0]] + s.channel.queue[1..];
    assert s.channel.received + ([] + [s.channel.queue[0]]) + s.channel.queue[1..]
        == s.channel.received + [] + s.channel.queue;
  }

  lemma DecrementKeepsInv(s: State, e: nat)
    requires Base(s) && TurnEnabled(s, e) && s.turns[e].AtDecrement?
    ensures Keeps(s, ApplyTurn(s, e))
  {
    var s' := ApplyTurn(s, e);
    BusyUpdate(s.turns, e, s'.turns[e]);
    assert s'.turns == s.turns[e := s'.turns[e]];
    QuietTurn(s, s', e, s'.turns[e]);
    assert s.channel.hand == [s.channel.hand[0]];
    assert s'.channel.hand == [];
    assert s.channel.received + s.channel.hand + s.channel.queue == s'.channel.received + [] + s.channel.queue;
  }

  lemma EndSendKeepsInv(s: State, e: nat)
    requires Base(s) && TurnEnabled(s, e) && s.turns[e].Sending?
    ensures Keeps(s, ApplyTurn(s, e))
  {
    var s' := ApplyTurn(s, e);
    RestKeepsTurns(s, s', e, Done);
    BusyUpdate(s.turns, e, Done);
    QuietTurn(s, s', e, Done);
    OtherTurnsStay(s, s', e, Done);
  }

  /** The store of the waker is in time: the count is still zero, or a wake is on its way. */
  predicate StoreInTime(s: State) {
    s.channel.count == 0 || Signal(s) || InFlight(s, RECEIVER)
  }

  lemma StoreKeepsInv(s: State, e: nat)
    requires Base(s) && TurnEnabled(s, e) && s.turns[e].AtStore?
    ensures Base(ApplyTurn(s, e))
    ensures StoreInTime(s) ==> NotForgotten(ApplyTurn(s, e))
  {
    var s' := ApplyTurn(s, e);
    BusyUpdate(s.turns, e, Done);
    QuietTurn(s, s', e, Done);
    OtherTurnsStay(s, s', e, Done);
  }

  lemma SplitKeepsInv(s: State, e: nat)
    requires Base(s) && Enabled(s, SplitLoad(e))
    ensures Keeps(s, Apply(s, SplitLoad(e)))
  {
    var s' := Apply(s, SplitLoad(e));
    BusyUpdate(s.turns, e, AtStore);
    QuietTurn(s, s', e, AtStore);
    OtherTurnsStay(s, s', e, AtStore);
  }

  // ---------------------------------------------------------------------------
  // Runs

  /** A store of the waker that is apart from its load of the count must be in time. */
  predicate CleanStep(s: State, step: Step) {
    step.TurnStep? && step.executor < |s.turns| && s.turns[step.executor].AtStore? ==> StoreInTime(s)
  }

  lemma TurnKeepsInv(s: State, e: nat)
    requires Base(s) && TurnEnabled(s, e)
    ensures Base(ApplyTurn(s, e))
    ensures NotForgotten(s) && CleanStep(s, TurnStep(e)) ==> NotForgotten(ApplyTurn(s, e))
  {
    match s.turns[e]
    case Idle => ReceiveKeepsInv(s, e);
    case Got(_) => BeginKeepsInv(s, e);
    case AtDecrement => DecrementKeepsInv(s, e);
    case AtStore => StoreKeepsInv(s, e);
    case Sending(_) => EndSendKeepsInv(s, e);
    case Done => ReportKeepsInv(s, e);
    case AtRecv => LoadKeepsInv(s, e);
    case AtTake => TakeKeepsInv(s, e);
  }

  /** Every step keeps all but `NotForgotten`, and only a late store of the waker does not keep that. */
  lemma StepKeepsInv(s: State, step: Step)
    requires Base(s) && Enabled(s, step)
    ensures Base(Apply(s, step))
    ensures NotForgotten(s) && CleanStep(s, step) ==> NotForgotten(Apply(s, step))
  {
    match step
    case SenderStep(i) => SenderKeepsInv(s, i);
    case ReactorStep => ReactorKeepsInv(s);
    case TurnStep(e) => TurnKeepsInv(s, e);
    case SplitLoad(e) => SplitKeepsInv(s, e);
    case Outside(x) => EventKeepsInv(s, x);
  }

  lemma {:induction false} RunKeepsBase(s: State, steps: seq<Step>)
    requires Base(s) && Runs(s, steps)
    ensures Base(After(s, steps))
    decreases |steps|
  {
    if steps != [] {
      StepKeepsInv(s, steps[0]);
      RunKeepsBase(Apply(s, steps[0]), steps[1..]);
    }
  }

  predicate CleanRun(s: State, steps: seq<Step>)
    requires Runs(s, steps)
    decreases |steps|
  {
    steps == [] || (CleanStep(s, steps[0]) && CleanRun(Apply(s, steps[0]), steps[1..]))
  }

  lemma {:induction false} CleanRunKeepsInv(s: State, steps: seq<Step>)
    requires Inv(s) && Runs(s, steps) && CleanRun(s, steps)
    ensures Inv(After(s, steps))
    decreases |steps|
  {
    if steps != [] {
      StepKeepsInv(s, steps[0]);
      CleanRunKeepsInv(Apply(s, steps[0]), steps[1..]);
    }
  }

  /** No step takes the empty branch of `poll_recv` apart. */
  predicate Atomic(steps: seq<Step>) {
    forall i :: 0 <= i < |steps| ==> !steps[i].SplitLoad?
  }

  predicate NoneAtStore(s: State) {
    forall e :: 0 <= e < |s.turns| ==> !s.turns[e].AtStore?
  }

  lemma {:induction false} AtomicRunsAreClean(s: State, steps: seq<Step>)
    requires Runs(s, steps) && Atomic(steps) && NoneAtStore(s)
    ensures CleanRun(s, steps) && NoneAtStore(After(s, steps))
    decreases |steps|
  {
    if steps != [] {
      assert !steps[0].SplitLoad?;
      AtomicStepStaysAtomic(s, steps[0]);
      AtomicRunsAreClean(Apply(s, steps[0]), steps[1..]);
    }
  }

  lemma AtomicStepStaysAtomic(s: State, step: Step)
    requires Enabled(s, step) && NoneAtStore(s) && !step.SplitLoad?
    ensures NoneAtStore(Apply(s, step))
  {
    var s' := Apply(s, step);
    if step.TurnStep? {
      assert s'.turns == s.turns[step.executor := s'.turns[step.executor]];
    } else {
      assert s'.turns == s.turns;
    }
  }

  lemma InitialHasInv(s: State)
    requires Initial(s)
    ensures Inv(s) && NoneAtStore(s)
  {
    forall e: ExecutorId | e < |s.turns|
      ensures e in s.d.waitingExecutors
    {
      assert s.d.waitingExecutors[e] == e;
    }
    assert Busy(s.turns) == {};
    NoneUncounted(s.senders);
  }

  lemma {:induction false} NoneUncounted(senders: seq<Sender>)
    requires forall i :: 0 <= i < |senders| ==> !senders[i].phase.AtCount?
    ensures Uncounted(senders) == 0
  {
    if senders != [] {
      NoneUncounted(senders[1..]);
    }
  }

  lemma AtomicRunKeepsInv(s: State, steps: seq<Step>)
    requires Initial(s) && Runs(s, steps) && Atomic(steps)
    ensures Inv(After(s, steps)) && NoneAtStore(After(s, steps))
  {
    InitialHasInv(s);
    AtomicRunsAreClean(s, steps);
    CleanRunKeepsInv(s, steps);
  }

  // ---------------------------------------------------------------------------
  // Results

  /**
   The counter law over every run, and what follows for the receiver: it never finds the
   queue empty after a positive count, never counts below zero, and receives in order.
   */
  lemma CounterLaw(s: State, steps: seq<Step>)
    requires Initial(s) && Runs(s, steps)
    ensures var c := After(s, steps).channel;
            && c.count >= 0
            && c.count + Uncounted(After(s, steps).senders) == |c.queue| + |c.hand|
            && c.received + c.hand + c.queue == c.sent
    ensures var s' := After(s, steps);
            forall e :: 0 <= e < |s'.turns| && s'.turns[e].AtTake? ==> s'.channel.queue != []
    ensures var s' := After(s, steps);
            forall e :: 0 <= e < |s'.turns| && s'.turns[e].AtDecrement? ==> s'.channel.count > 0 && s'.channel.hand != []
  {
    InitialHasInv(s);
    RunKeepsBase(s, steps);
  }

  /** Nothing is under way: no send, no reactor work, no copy of a task, no turn. */
  predicate Quiescent(s: State) {
    && (forall i :: 0 <= i < |s.senders| ==> s.senders[i].phase.NotLaunched? || s.senders[i].phase.Finished?)
    && s.reactor.phase.Waiting? && !s.reactor.woken
    && s.d.waitingTasks == []
    && (forall e :: e in s.d.channels ==> s.d.channels[e] == [])
    && (forall e :: 0 <= e < |s.turns| ==> s.turns[e].Idle?)
  }

  lemma QuiescentMeansEmpty(s: State)
    requires Inv(s) && Quiescent(s) && s.started && s.wanted > 0
    ensures s.reactor.stored && s.channel.queue == [] && s.channel.received == s.channel.sent
  {
    NoneUncounted(s.senders);
  }

  /**
   In every state of a clean run where a message is counted and the receiver is parked, a wake is in
   flight: its task is queued or received, or its waker is stored and a tag is about to be
   buffered, or is buffered with its mio wake or a draining reactor behind it, or is in hand.
   */
  lemma ParkedReceiverHasWake(s: State, steps: seq<Step>)
    requires Initial(s) && Runs(s, steps) && CleanRun(s, steps)
    requires var s' := After(s, steps); s'.started && s'.wanted > 0 && ReceiverFree(s') && s'.channel.count > 0
    ensures var s' := After(s, steps);
            || InFlight(s', RECEIVER)
            || (s'.reactor.stored &&
                (|| SomeSender(s', AtTag)
                 || s'.reactor.phase == Holding(true)
                 || (true in s'.reactor.tags
                     && (s'.reactor.woken || !s'.reactor.phase.Waiting? || SomeSender(s', AtWake)))))
  {
    InitialHasInv(s);
    CleanRunKeepsInv(s, steps);
  }

  /** No clean run comes to rest while the receiver waits and a message is in the channel. */
  lemma NoLostWakeUp(s: State, steps: seq<Step>)
    requires Initial(s) && Runs(s, steps) && CleanRun(s, steps)
    requires var s' := After(s, steps); Quiescent(s') && s'.started && s'.wanted > 0
    ensures var c := After(s, steps).channel; c.queue == [] && c.count == 0 && c.received == c.sent
  {
    InitialHasInv(s);
    CleanRunKeepsInv(s, steps);
    QuiescentMeansEmpty(After(s, steps));
    NoneUncounted(After(s, steps).senders);
  }
}
