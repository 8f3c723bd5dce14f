/**
 From a send to the poll of the receiver: one bounded channel with its senders, the
 reactor, the task manager, and the executors.

 A send is four steps: the value, the count, the tag, the mio wake. The reactor drains tags
 and wakes the task stored for the channel. Calls of the task manager are single steps,
 and so is the branch of `poll_recv` that finds the count at zero. `SplitLoad` takes that
 last branch apart.

 Task 0 receives. Task i + 1, if it is spawned, performs send i and completes; a send may
 also be performed by a thread. Every other task may come and go. Nothing is aborted.
 */
module WakeChain {
  import opened Dispatching

  /** What is sent. */
  type Message(==, !new)

  const RECEIVER: TaskId := 0

  datatype SenderPhase =
    | NotLaunched
    | Launched        // its task is spawned and has not begun
    | AtSend          // before the send of the value
    | AtCount         // before the increment of the count
    | AtTag           // before the push of the tag
    | AtWake          // before the mio wake
    | Finished

  datatype Sender = Sender(phase: SenderPhase, value: Message)

  /** The turn of an executor. */
  datatype Turn =
    | Idle                  // in `recv` on its channel
    | Got(task: TaskId)     // before the lock of the future
    | AtRecv                // polls task 0: before the load of the count
    | AtStore               // has loaded zero, before the store of the waker
    | AtTake                // has loaded more, before the receive
    | AtDecrement           // before the decrement of the count
    | Sending(sender: nat)  // polls the task of a sender
    | Done                  // before its report to the task manager

  /** `hand` holds values received but not yet counted off. */
  datatype Channel = Channel(
    bound: nat,
    queue: seq<Message>,
    count: int,
    hand: seq<Message>,
    sent: seq<Message>,
    received: seq<Message>)

  datatype ReactorPhase = Waiting | Draining | Holding(ours: bool)

  /** Buffered tags (of this channel, or of another), the mio flag, and whether task 0 has stored its waker. */
  datatype Reactor = Reactor(tags: seq<bool>, woken: bool, phase: ReactorPhase, stored: bool)

  datatype State = State(
    d: Dispatcher,
    turns: seq<Turn>,
    senders: seq<Sender>,
    channel: Channel,
    reactor: Reactor,
    started: bool,   // task 0 has been spawned
    wanted: nat)     // receives that task 0 has yet to make

  datatype Event =
    | SpawnReceiver | Spawn(sender: nat) | StartThread(sender: nat)
    | Wake(task: TaskId) | OtherTag | OtherRing

  datatype Step = SenderStep(sender: nat) | ReactorStep | TurnStep(executor: nat) | SplitLoad(executor: nat) | Outside(event: Event)

  // ---------------------------------------------------------------------------
  // Steps

  predicate CanSubmit(s: State) {
    s.d.waitingExecutors != [] || |s.d.waitingTasks| < TASK_CAPACITY
  }

  /** Serial numbers play no part here. */
  function Submit(s: State, t: TaskId): State {
    s.(d := SubmitCall(s.d, {}, Copy(t, 0)).0)
  }

  function SetSender(s: State, i: nat, phase: SenderPhase): State
    requires i < |s.senders|
  {
    s.(senders := s.senders[i := s.senders[i].(phase := phase)])
  }

  function SetTurn(s: State, e: nat, turn: Turn): State
    requires e < |s.turns|
  {
    s.(turns := s.turns[e := turn])
  }

  predicate SenderEnabled(s: State, i: nat) {
    i < |s.senders| &&
    match s.senders[i].phase
    case AtSend => |s.channel.queue| < s.channel.bound
    case AtCount => true
    case AtTag => |s.reactor.tags| < TAG_CAPACITY
    case AtWake => true
    case _ => false
  }

  function ApplySender(s: State, i: nat): State
    requires SenderEnabled(s, i)
  {
    match s.senders[i].phase
    case AtSend =>
      var v := s.senders[i].value;
      SetSender(s, i, AtCount).(channel := s.channel.(queue := s.channel.queue + [v], sent := s.channel.sent + [v]))
    case AtCount => SetSender(s, i, AtTag).(channel := s.channel.(count := s.channel.count + 1))
    case AtTag => SetSender(s, i, AtWake).(reactor := s.reactor.(tags := s.reactor.tags + [true]))
    case AtWake => SetSender(s, i, Finished).(reactor := s.reactor.(woken := true))
  }

  predicate ReactorEnabled(s: State) {
    match s.reactor.phase
    case Waiting => s.reactor.woken
    case Draining => true
    case Holding(ours) => ours && s.reactor.stored ==> CanSubmit(s)
  }

  function ApplyReactor(s: State): State
    requires ReactorEnabled(s)
  {
    match s.reactor.phase
    case Waiting => s.(reactor := s.reactor.(woken := false, phase := Draining))
    case Draining =>
      if s.reactor.tags == [] then s.(reactor := s.reactor.(phase := Waiting))
      else s.(reactor := s.reactor.(tags := s.reactor.tags[1..], phase := Holding(s.reactor.tags[0])))
    case Holding(ours) =>
      var s1 := s.(reactor := s.reactor.(phase := Draining));
      if ours && s.reactor.stored then Submit(s1, RECEIVER) else s1
  }

  predicate Receives(turn: Turn) {
    turn.AtRecv? || turn.AtStore? || turn.AtTake? || turn.AtDecrement?
  }

  /** No executor polls task 0. */
  predicate ReceiverFree(s: State) {
    forall d :: 0 <= d < |s.turns| ==> !Receives(s.turns[d])
  }

  predicate TurnEnabled(s: State, e: nat) {
    e < |s.turns| &&
    match s.turns[e]
    case Idle => e in s.d.channels && s.d.channels[e] != []
    case Got(t) =>
      if t == RECEIVER then s.wanted > 0 ==> ReceiverFree(s)
      else if t <= |s.senders| then !s.senders[t - 1].phase.AtSend? && !s.senders[t - 1].phase.AtCount?
                                    && !s.senders[t - 1].phase.AtTag? && !s.senders[t - 1].phase.AtWake?
      else true
    case AtTake => s.channel.queue != []
    case AtDecrement => s.channel.hand != []
    case Sending(i) => i < |s.senders| && s.senders[i].phase.Finished?
    case _ => true
  }

  function ApplyTurn(s: State, e: nat): State
    requires TurnEnabled(s, e)
  {
    match s.turns[e]
    case Idle => SetTurn(s, e, Got(s.d.channels[e][0].task)).(d := ReceiveCall(s.d, e))
    case Got(t) =>
      if t == RECEIVER then SetTurn(s, e, if s.wanted > 0 then AtRecv else Done)
      else if t <= |s.senders| && s.senders[t - 1].phase.Launched? then SetTurn(SetSender(s, t - 1, AtSend), e, Sending(t - 1))
      else SetTurn(s, e, Done)
    case AtRecv =>
      if s.channel.count == 0 then SetTurn(s, e, Done).(reactor := s.reactor.(stored := true))
      else SetTurn(s, e, AtTake)
    case AtStore => SetTurn(s, e, Done).(reactor := s.reactor.(stored := true))
    case AtTake =>
      SetTurn(s, e, AtDecrement).(channel := s.channel.(
        queue := s.channel.queue[1..], hand := s.channel.hand + [s.channel.queue[0]]))
    case AtDecrement =>
      var left := if s.wanted == 0 then 0 else s.wanted - 1;
      SetTurn(s, e, if left > 0 then AtRecv else Done).(
        wanted := left,
        channel := s.channel.(
          count := s.channel.count - 1, hand := s.channel.hand[1..], received := s.channel.received + [s.channel.hand[0]]))
    case Sending(_) => SetTurn(s, e, Done)
    case Done => SetTurn(s, e, Idle).(d := ReadyCall(s.d, {}, e).0)
  }

  predicate EventEnabled(s: State, x: Event) {
    match x
    case SpawnReceiver => !s.started && CanSubmit(s)
    case Spawn(i) => i < |s.senders| && s.senders[i].phase.NotLaunched? && CanSubmit(s)
    case StartThread(i) => i < |s.senders| && s.senders[i].phase.NotLaunched?
    case Wake(t) => CanSubmit(s) && (0 < t <= |s.senders| ==> !s.senders[t - 1].phase.NotLaunched?) && (t == RECEIVER ==> s.started)
    case OtherTag => |s.reactor.tags| < TAG_CAPACITY
    case OtherRing => true
  }

  function ApplyEvent(s: State, x: Event): State
    requires EventEnabled(s, x)
  {
    match x
    case SpawnReceiver => Submit(s.(started := true), RECEIVER)
    case Spawn(i) => Submit(SetSender(s, i, Launched), i + 1)
    case StartThread(i) => SetSender(s, i, AtSend)
    case Wake(t) => Submit(s, t)
    case OtherTag => s.(reactor := s.reactor.(tags := s.reactor.tags + [false]))
    case OtherRing => s.(reactor := s.reactor.(woken := true))
  }

  predicate Enabled(s: State, step: Step) {
    match step
    case SenderStep(i) => SenderEnabled(s, i)
    case ReactorStep => ReactorEnabled(s)
    case TurnStep(e) => TurnEnabled(s, e)
    case SplitLoad(e) => e < |s.turns| && s.turns[e].AtRecv? && s.channel.count == 0
    case Outside(x) => EventEnabled(s, x)
  }

  function Apply(s: State, step: Step): State
    requires Enabled(s, step)
  {
    match step
    case SenderStep(i) => ApplySender(s, i)
    case ReactorStep => ApplyReactor(s)
    case TurnStep(e) => ApplyTurn(s, e)
    case SplitLoad(e) => SetTurn(s, e, AtStore)
    case Outside(x) => ApplyEvent(s, x)
  }

  predicate Runs(s: State, steps: seq<Step>)
    decreases |steps|
  {
    steps == [] || (Enabled(s, steps[0]) && Runs(Apply(s, steps[0]), steps[1..]))
  }

  function After(s: State, steps: seq<Step>): State
    requires Runs(s, steps)
    decreases |steps|
  {
    if steps == [] then s else After(Apply(s, steps[0]), steps[1..])
  }

  ghost predicate Reaches(s: State, s': State) {
    exists steps :: Runs(s, steps) && After(s, steps) == s'
  }

  lemma ReachesItself(s: State)
    ensures Reaches(s, s)
  {
    assert Runs(s, []) && After(s, []) == s;
  }

  lemma ReachesByStep(s: State, step: Step, s': State)
    requires Enabled(s, step) && Reaches(Apply(s, step), s')
    ensures Reaches(s, s')
  {
    var rest :| Runs(Apply(s, step), rest) && After(Apply(s, step), rest) == s';
    assert ([step] + rest)[1..] == rest;
    assert Runs(s, [step] + rest) && After(s, [step] + rest) == s';
  }

  /** `n` idle executors, an empty channel, nothing launched yet. */
  ghost predicate Initial(s: State) {
    && |s.turns| <= EXECUTOR_CAPACITY
    && (forall e :: 0 <= e < |s.turns| ==> s.turns[e] == Idle)
    && s.d.waitingTasks == []
    && |s.d.waitingExecutors| == |s.turns|
    && (forall i :: 0 <= i < |s.d.waitingExecutors| ==> s.d.waitingExecutors[i] == i)
    && (forall e: ExecutorId :: e in s.d.channels <==> e < |s.turns|)
    && (forall e :: e in s.d.channels ==> s.d.channels[e] == [])
    && (forall i :: 0 <= i < |s.senders| ==> s.senders[i].phase == NotLaunched)
    && s.channel == Channel(s.channel.bound, [], 0, [], [], [])
    && s.reactor == Reactor([], false, Waiting, false)
    && !s.started
  }
}
