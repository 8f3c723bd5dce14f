/**
 The ring buffer with one pushing and one popping thread, one memory access per step.

 Every load, store, slot write and slot read of `push` and `pop` is its own step, and a
 slot write or read takes two steps so that an overlap would show. A push takes effect
 when it increments the count and a pop when it decrements it.

 `push` increments the count before it stores the new end, and a pop that loads the end in
 between, with nothing left to take, is led to an empty slot. `Stale` is exactly that
 situation. Runs without it, among them all runs in which the two accesses happen
 together, are a bounded FIFO queue.
 */
module SpscRing {
  import opened Wrappers
  import opened RingBuffers

  datatype Pusher<+T> =
    | PushIdle
    | PushCheck(value: T)                   // before the test for a full buffer
    | PushLoadEnd(value: T)                 // before the load of `end`
    | PushWrite(value: T, at: nat)          // before the slot write
    | PushWriting(value: T, at: nat)        // the slot write has begun
    | PushCount(value: T, at: nat)          // before the increment of `count`
    | PushStore(newEnd: nat)                // before the store of `end`

  datatype Popper<+T> =
    | PopIdle
    | PopLoadEnd(at: nat)                   // `start` is loaded, before the load of `end`
    | PopCheck(at: nat, seen: nat)          // before the test for an empty buffer
    | PopRead(at: nat)                      // before the slot read
    | PopReading(at: nat)                   // the slot read has begun
    | PopCount(at: nat, taken: Slot<T>)     // before the decrement of `count`
    | PopStore(at: nat, taken: Slot<T>)     // before the store of `start`

  /** `count` is an integer: taking from an empty buffer would bring it below zero. */
  datatype State<+T> = State(slots: seq<Slot<T>>, start: nat, end: nat, count: int,
                             pusher: Pusher<T>, popper: Popper<T>)

  datatype Step<+T> =
    | BeginPush(value: T) | CheckFull | LoadEnd | BeginWrite | EndWrite | AddCount | StoreEnd
    | BeginPop | LoadEndToPop | CheckEmpty | BeginRead | EndRead | SubCount | StoreStart

  function Next(i: nat, capacity: nat): nat {
    if i + 1 < capacity then i + 1 else 0
  }

  function InitState<T>(bound: nat): State<T> {
    State(seq(bound, i => Uninit), 0, 0, 0, PushIdle, PopIdle)
  }

  predicate Enabled<T>(s: State<T>, step: Step<T>) {
    match step
    case BeginPush(_) => s.pusher.PushIdle?
    case CheckFull => s.pusher.PushCheck?
    case LoadEnd => s.pusher.PushLoadEnd?
    case BeginWrite => s.pusher.PushWrite?
    case EndWrite => s.pusher.PushWriting? && s.pusher.at < |s.slots|
    case AddCount => s.pusher.PushCount?
    case StoreEnd => s.pusher.PushStore?
    case BeginPop => s.popper.PopIdle?
    case LoadEndToPop => s.popper.PopLoadEnd?
    case CheckEmpty => s.popper.PopCheck?
    case BeginRead => s.popper.PopRead?
    case EndRead => s.popper.PopReading? && s.popper.at < |s.slots|
    case SubCount => s.popper.PopCount?
    case StoreStart => s.popper.PopStore?
  }

  function Apply<T>(s: State<T>, step: Step<T>): State<T>
    requires Enabled(s, step)
  {
    match step
    case BeginPush(v) => s.(pusher := PushCheck(v))
    case CheckFull => s.(pusher := if s.count == |s.slots| then PushIdle else PushLoadEnd(s.pusher.value))
    case LoadEnd => s.(pusher := PushWrite(s.pusher.value, s.end))
    case BeginWrite => s.(pusher := PushWriting(s.pusher.value, s.pusher.at))
    case EndWrite =>
      s.(slots := s.slots[s.pusher.at := Init(s.pusher.value)], pusher := PushCount(s.pusher.value, s.pusher.at))
    case AddCount => s.(count := s.count + 1, pusher := PushStore(Next(s.pusher.at, |s.slots|)))
    case StoreEnd => s.(end := s.pusher.newEnd, pusher := PushIdle)
    case BeginPop => s.(popper := PopLoadEnd(s.start))
    case LoadEndToPop => s.(popper := PopCheck(s.popper.at, s.end))
    case CheckEmpty =>
      s.(popper := if s.popper.at == s.popper.seen && s.count == 0 then PopIdle else PopRead(s.popper.at))
    case BeginRead => s.(popper := PopReading(s.popper.at))
    case EndRead =>
      s.(slots := s.slots[s.popper.at := Uninit], popper := PopCount(s.popper.at, s.slots[s.popper.at]))
    case SubCount => s.(count := s.count - 1, popper := PopStore(s.popper.at, s.popper.taken))
    case StoreStart => s.(start := Next(s.popper.at, |s.slots|), popper := PopIdle)
  }

  // ---------------------------------------------------------------------------
  // The queue in memory

  /** The slot of the oldest value: a pop that has taken effect may still have to store `start`. */
  function Front<T>(s: State<T>): nat {
    if s.popper.PopStore? then Next(s.popper.at, |s.slots|) else s.start
  }

  /** The slot for the next value: a push that has taken effect may still have to store `end`. */
  function Back<T>(s: State<T>): nat {
    if s.pusher.PushStore? then s.pusher.newEnd else s.end
  }

  /** Slot `j` holds a value of the queue that no pop has moved out yet. */
  predicate Live<T>(s: State<T>, j: nat) {
    && Offset(Front(s), j, |s.slots|) < s.count
    && !(s.popper.PopCount? && j == s.popper.at)
  }

  predicate Bounds<T>(s: State<T>) {
    var capacity := |s.slots|;
    && 0 <= s.count <= capacity
    && (capacity == 0 ==> s.start == s.end == 0)
    && (capacity > 0 ==> Front(s) < capacity && s.start < capacity && s.end < capacity)
    && Back(s) == (if capacity == 0 then 0 else Around(Front(s), s.count, capacity))
    && (s.pusher.PushStore? ==> capacity > 0 && s.pusher.newEnd == Next(s.end, capacity))
  }

  ghost predicate PusherInv<T>(s: State<T>) {
    match s.pusher
    case PushLoadEnd(_) => s.count < |s.slots|
    case PushWrite(_, at) => s.count < |s.slots| && at == s.end
    case PushWriting(_, at) => s.count < |s.slots| && at == s.end
    case PushCount(v, at) => s.count < |s.slots| && at == s.end < |s.slots| && s.slots[at] == Init(v)
    case _ => true
  }

  predicate PopperInv<T>(s: State<T>)
    requires Bounds(s)
  {
    match s.popper
    case PopIdle => true
    case PopLoadEnd(at) => at == s.start
    case PopCheck(at, seen) => at == s.start && (s.count == 0 ==> seen == at)
    case PopRead(at) => at == s.start && s.count > 0
    case PopReading(at) => at == s.start && s.count > 0
    case PopCount(at, taken) => at == s.start && s.count > 0 && taken.Init?
    case PopStore(at, taken) => at == s.start && |s.slots| > 0 && taken.Init?
  }

  ghost predicate Inv<T>(s: State<T>) {
    && Bounds(s)
    && PusherInv(s)
    && PopperInv(s)
    && SlotsInv(s)
  }

  /** A slot holds a value when it is live or when it has been written but not yet counted. */
  predicate SlotsInv<T>(s: State<T>) {
    forall j {:trigger s.slots[j]} :: 0 <= j < |s.slots| ==>
      (s.slots[j].Init? <==> Live(s, j) || (s.pusher.PushCount? && j == s.pusher.at))
  }

  /** The queue that the memory stands for. */
  ghost function Queue<T>(s: State<T>): (q: seq<T>)
    requires Inv(s)
    ensures |q| == s.count
  {
    seq(s.count, k requires 0 <= k < s.count =>
      var j := Around(Front(s), k, |s.slots|);
      if s.popper.PopCount? && j == s.popper.at then s.popper.taken.value
      else assert Offset(Front(s), j, |s.slots|) == k; s.slots[j].value)
  }

  /** The pop about to load `end` would miss that the value it has seen counted is gone. */
  predicate Stale<T>(s: State<T>) {
    s.pusher.PushStore? && s.count == 0 && |s.slots| > 1
  }

  predicate CleanStep<T>(s: State<T>, step: Step<T>) {
    step.LoadEndToPop? ==> !Stale(s)
  }

  lemma StepKeepsBounds<T>(s: State<T>, step: Step<T>)
    requires Inv(s) && Enabled(s, step)
    ensures Bounds(Apply(s, step))
  {
  }

  lemma StepKeepsThreads<T>(s: State<T>, step: Step<T>)
    requires Inv(s) && Enabled(s, step) && CleanStep(s, step)
    requires Bounds(Apply(s, step))
    ensures PusherInv(Apply(s, step)) && PopperInv(Apply(s, step))
  {
    if step.LoadEndToPop? && s.count == 0 && !s.pusher.PushStore? {
      assert Back(s) == s.end && Front(s) == s.start;
    }
    if step.EndRead? {
      assert Live(s, s.start);
    }
    if step.EndRead? && s.pusher.PushCount? {
      assert s.end != s.start;
    }
  }

  predicate ByPopper<T>(step: Step<T>) {
    || step.BeginPop? || step.LoadEndToPop? || step.CheckEmpty? || step.BeginRead?
    || step.EndRead? || step.SubCount? || step.StoreStart?
  }

  lemma PusherKeepsSlots<T>(s: State<T>, step: Step<T>)
    requires Inv(s) && Enabled(s, step) && !ByPopper(step)
    requires Bounds(Apply(s, step))
    ensures SlotsInv(Apply(s, step))
  {
    var s' := Apply(s, step);
    forall j | 0 <= j < |s'.slots|
      ensures s'.slots[j].Init? <==> Live(s', j) || (s'.pusher.PushCount? && j == s'.pusher.at)
    {
      assert s.slots[j].Init? <==> Live(s, j) || (s.pusher.PushCount? && j == s.pusher.at);
    }
  }

  lemma PopperKeepsSlots<T>(s: State<T>, step: Step<T>)
    requires Inv(s) && Enabled(s, step) && ByPopper(step)
    requires Bounds(Apply(s, step))
    ensures SlotsInv(Apply(s, step))
  {
    var s' := Apply(s, step);
    forall j | 0 <= j < |s'.slots|
      ensures s'.slots[j].Init? <==> Live(s', j) || (s'.pusher.PushCount? && j == s'.pusher.at)
    {
      assert s.slots[j].Init? <==> Live(s, j) || (s.pusher.PushCount? && j == s.pusher.at);
    }
  }

  lemma StepKeepsSlots<T>(s: State<T>, step: Step<T>)
    requires Inv(s) && Enabled(s, step)
    requires Bounds(Apply(s, step))
    ensures SlotsInv(Apply(s, step))
  {
    if ByPopper(step) {
      PopperKeepsSlots(s, step);
    } else {
      PusherKeepsSlots(s, step);
    }
  }

  lemma StepKeepsInv<T>(s: State<T>, step: Step<T>)
    requires Inv(s) && Enabled(s, step) && CleanStep(s, step)
    ensures Inv(Apply(s, step))
  {
    StepKeepsBounds(s, step);
    StepKeepsThreads(s, step);
    StepKeepsSlots(s, step);
  }

  // ---------------------------------------------------------------------------
  // Safety

  /** No read finds an empty slot, no write hits a value, and no slot is read and written at once. */
  predicate MemorySafe<T>(s: State<T>) {
    && 0 <= s.count <= |s.slots|
    && (s.popper.PopReading? ==> s.popper.at < |s.slots| && s.slots[s.popper.at].Init?)
    && (s.popper.PopStore? ==> s.popper.taken.Init?)
    && (s.pusher.PushWriting? ==> s.pusher.at < |s.slots| && s.slots[s.pusher.at].Uninit?)
    && (s.popper.PopReading? && s.pusher.PushWriting? ==> s.popper.at != s.pusher.at)
  }

  lemma InvIsSafe<T>(s: State<T>)
    requires Inv(s)
    ensures MemorySafe(s)
  {
    if s.popper.PopReading? {
      assert Live(s, s.popper.at);
    }
  }

  // ---------------------------------------------------------------------------
  // Linearization

  /** The queue operation that takes effect with a step, and its answer. */
  function Effect<T>(s: State<T>, step: Step<T>): Option<(Op<T>, Out<T>)>
    requires Enabled(s, step)
  {
    match step
    case CheckFull => if s.count == |s.slots| then Some((Push(s.pusher.value), Full)) else None
    case AddCount => Some((Push(s.pusher.value), Accepted))
    case CheckEmpty => if s.popper.at == s.popper.seen && s.count == 0 then Some((Op.Pop, Empty)) else None
    case SubCount => if s.popper.taken.Init? then Some((Op.Pop, Popped(s.popper.taken.value))) else None
    case _ => None
  }

  lemma CountingAppends<T>(s: State<T>)
    requires Inv(s) && Enabled(s, AddCount)
    ensures Inv(Apply(s, AddCount)) && Queue(Apply(s, AddCount)) == Queue(s) + [s.pusher.value]
  {
    StepKeepsInv(s, AddCount);
    var s' := Apply(s, AddCount);
    var capacity := |s.slots|;
    forall k | 0 <= k < s'.count
      ensures Queue(s')[k] == (Queue(s) + [s.pusher.value])[k]
    {
      assert Offset(Front(s), Around(Front(s), k, capacity), capacity) == k;
    }
  }

  lemma TakingRemovesOldest<T>(s: State<T>)
    requires Inv(s) && Enabled(s, SubCount)
    ensures Inv(Apply(s, SubCount)) && s.popper.taken.Init? && Queue(s) != []
    ensures Queue(s)[0] == s.popper.taken.value && Queue(Apply(s, SubCount)) == Queue(s)[1..]
  {
    StepKeepsInv(s, SubCount);
    var s' := Apply(s, SubCount);
    var capacity := |s.slots|;
    forall k | 0 <= k < s'.count
      ensures Queue(s')[k] == Queue(s)[1..][k]
    {
      assert Around(Front(s'), k, capacity) == Around(Front(s), k + 1, capacity);
      assert Offset(Front(s), Around(Front(s), k + 1, capacity), capacity) == k + 1;
    }
  }

  lemma MovingValuesKeepsQueue<T>(s: State<T>, step: Step<T>)
    requires Inv(s) && Enabled(s, step) && (step.EndRead? || step.EndWrite?)
    ensures Inv(Apply(s, step)) && Queue(Apply(s, step)) == Queue(s)
  {
    StepKeepsInv(s, step);
    var s' := Apply(s, step);
    var capacity := |s.slots|;
    forall k | 0 <= k < s'.count
      ensures Queue(s')[k] == Queue(s)[k]
    {
      assert Offset(Front(s), Around(Front(s), k, capacity), capacity) == k;
    }
  }

  lemma OtherStepsKeepQueue<T>(s: State<T>, step: Step<T>)
    requires Inv(s) && Enabled(s, step) && CleanStep(s, step)
    requires !step.AddCount? && !step.SubCount? && !step.EndRead? && !step.EndWrite?
    ensures Inv(Apply(s, step)) && Queue(Apply(s, step)) == Queue(s)
  {
    StepKeepsInv(s, step);
    var s' := Apply(s, step);
    assert s'.count == s.count && s'.slots == s.slots && Front(s') == Front(s);
    forall k | 0 <= k < s'.count
      ensures Queue(s')[k] == Queue(s)[k]
    {
    }
  }

  /** A step either leaves the queue alone or is one operation of the bounded FIFO queue. */
  lemma StepRefinesFifo<T>(s: State<T>, step: Step<T>)
    requires Inv(s) && Enabled(s, step) && CleanStep(s, step)
    ensures Inv(Apply(s, step))
    ensures match Effect(s, step)
            case None => Queue(Apply(s, step)) == Queue(s)
            case Some((op, out)) => FifoStep(Queue(s), |s.slots|, op) == (Queue(Apply(s, step)), out)
  {
    match step
    case AddCount => CountingAppends(s);
    case SubCount => TakingRemovesOldest(s);
    case EndRead => MovingValuesKeepsQueue(s, step);
    case EndWrite => MovingValuesKeepsQueue(s, step);
    case _ => OtherStepsKeepQueue(s, step);
  }
}
