/**
 The bounded channel: a queue of values, a separate count of them, and a tag by which the
 reactor finds the waker of the receiver.

 `SendCall` and `RecvCall` say what one uninterrupted call does. The sender and the
 receiver meet these on shared state. The lemmas tie both to the steps of `WakeChain`,
 where calls of many threads interleave, and characterise what sequential use sees.
 */
module Channels {
  import opened Wrappers
  import opened Reactors
  import opened Dispatching
  import RingBuffers
  import WakeChain

  /** What a sender, its receiver and the reactor share. */
  datatype Link<T> = Link(
    bound: nat,
    queue: seq<T>,
    count: nat,
    tags: seq<ReactorTag>,
    woken: bool,
    wakers: map<ReactorTag, Waker>)

  /** A blocked send waits for room. A panicked one found no room for its tag. */
  datatype SendOutcome = Accepted | Waits | TagsFull

  datatype Received<+T> = Value(value: T) | RecvError

  /** Value, count, tag, mio wake: in this order. */
  function SendCall<T>(l: Link<T>, tag: ReactorTag, v: T): (Link<T>, SendOutcome) {
    if |l.queue| >= l.bound then (l, Waits)
    else
      var counted := l.(queue := l.queue + [v], count := l.count + 1);
      if |l.tags| >= TAG_CAPACITY then (counted, TagsFull)
      else (counted.(tags := l.tags + [tag], woken := true), Accepted)
  }

  function RecvCall<T>(l: Link<T>, tag: ReactorTag, w: Waker): (Link<T>, Poll<Received<T>>) {
    if l.count == 0 then (l.(wakers := l.wakers[tag := w]), Pending)
    else if l.queue == [] then (l, Ready(RecvError))
    else (l.(queue := l.queue[1..], count := l.count - 1), Ready(Value(l.queue[0])))
  }

  /** The two ends share these. */
  class Shared<T> {
    const bound: nat
    const tag: ReactorTag
    const reactor: Reactor
    var queue: seq<T>
    var queueCnt: nat

    ghost predicate Valid()
      reads this, reactor, reactor.reactorTagBuffer, reactor.reactorTagBuffer.buffer
    {
      reactor.Valid()
    }

    ghost function State(): Link<T>
      requires Valid()
      reads this, reactor, reactor.reactorTagBuffer, reactor.reactorTagBuffer.buffer
    {
      Link(bound, queue, queueCnt, reactor.Tags(), reactor.mioWoken, reactor.reactorTags)
    }

    constructor (bound: nat, tag: ReactorTag, reactor: Reactor)
      requires reactor.Valid()
      ensures Valid() && this.bound == bound && this.tag == tag && this.reactor == reactor
      ensures State() == Link(bound, [], 0, reactor.Tags(), reactor.mioWoken, reactor.reactorTags)
    {
      this.bound, this.tag, this.reactor := bound, tag, reactor;
      queue, queueCnt := [], 0;
    }

    /** The standard library's receive that does not wait. */
    method TryRecv() returns (v: Option<T>)
      modifies `queue
      ensures v.None? <==> old(queue) == []
      ensures v.Some? ==> v.value == old(queue)[0] && queue == old(queue)[1..]
      ensures v.None? ==> queue == []
    {
      if queue == [] {
        return None;
      }
      v := Some(queue[0]);
      queue := queue[1..];
    }
  }

  class BoundedSender<T> {
    const shared: Shared<T>

    constructor (shared: Shared<T>)
      ensures this.shared == shared
    {
      this.shared := shared;
    }

    method Send(v: T) returns (out: SendOutcome)
      requires shared.Valid()
      modifies shared, shared.reactor`mioWoken
      modifies shared.reactor.reactorTagBuffer, shared.reactor.reactorTagBuffer.buffer
      ensures shared.Valid()
      ensures (shared.State(), out) == SendCall(old(shared.State()), shared.tag, v)
      ensures out == if |old(shared.queue)| >= shared.bound then Waits
                     else if |old(shared.reactor.Tags())| >= TAG_CAPACITY then TagsFull
                     else Accepted
      ensures out.Waits? ==> shared.queue == old(shared.queue) && shared.queueCnt == old(shared.queueCnt)
      ensures !out.Waits? ==> shared.queue == old(shared.queue) + [v] && shared.queueCnt == old(shared.queueCnt) + 1
      ensures shared.reactor.Tags() == old(shared.reactor.Tags()) + (if out.Accepted? then [shared.tag] else [])
      ensures shared.reactor.mioWoken == (old(shared.reactor.mioWoken) || out.Accepted?)
    {
      if |shared.queue| >= shared.bound {
        return Waits;
      }
      shared.queue := shared.queue + [v];
      shared.queueCnt := shared.queueCnt + 1;
      var ok := shared.reactor.RegisterReactorTag(shared.tag);
      if !ok {
        return TagsFull;
      }
      shared.reactor.mioWoken := true;
      return Accepted;
    }
  }

  class BoundedReceiver<T> {
    const shared: Shared<T>

    constructor (shared: Shared<T>)
      ensures this.shared == shared
    {
      this.shared := shared;
    }

    method PollRecv(w: Waker) returns (p: Poll<Received<T>>)
      requires shared.Valid()
      modifies shared, shared.reactor`reactorTags
      ensures shared.Valid()
      ensures (shared.State(), p) == RecvCall(old(shared.State()), shared.tag, w)
      ensures p.Pending? <==> old(shared.queueCnt) == 0
      ensures p.Pending? ==>
                && shared.reactor.reactorTags == old(shared.reactor.reactorTags)[shared.tag := w]
                && shared.queue == old(shared.queue) && shared.queueCnt == 0
      ensures p.Ready? ==> shared.reactor.reactorTags == old(shared.reactor.reactorTags)
      ensures p.Ready? && p.value.Value? ==>
                old(shared.queue) == [p.value.value] + shared.queue && shared.queueCnt == old(shared.queueCnt) - 1
      ensures p == Ready(RecvError) ==>
                old(shared.queue) == [] == shared.queue && shared.queueCnt == old(shared.queueCnt)
    {
      if shared.queueCnt == 0 {
        shared.reactor.StoreWakerChannel(shared.tag, w);
        return Pending;
      }
      var v := shared.TryRecv();
      if v.None? {
        return Ready(RecvError);
      }
      shared.queueCnt := shared.queueCnt - 1;
      return Ready(Value(v.value));
    }
  }

  /** Both ends of a new channel. The tag is the next one of a global counter. */
  method BoundedChannel<T>(bound: nat, tag: ReactorTag, reactor: Reactor)
    returns (tx: BoundedSender<T>, rx: BoundedReceiver<T>)
    requires reactor.Valid()
    ensures fresh(tx) && fresh(rx) && fresh(tx.shared) && tx.shared == rx.shared && tx.shared.Valid()
    ensures tx.shared.tag == tag && tx.shared.reactor == reactor
    ensures tx.shared.State() == Link(bound, [], 0, reactor.Tags(), reactor.mioWoken, reactor.reactorTags)
  {
    var shared := new Shared<T>(bound, tag, reactor);
    tx := new BoundedSender(shared);
    rx := new BoundedReceiver(shared);
  }

  // ---------------------------------------------------------------------------
  // The calls and the steps of WakeChain

  /** The link `l` is the channel of `s`, with its tag written out. */
  ghost predicate Represents(l: Link<WakeChain.Message>, s: WakeChain.State, tag: ReactorTag) {
    && (l.bound, l.queue, l.count) == (s.channel.bound, s.channel.queue, s.channel.count)
    && s.channel.hand == []
    && |l.tags| == |s.reactor.tags|
    && (forall i :: 0 <= i < |l.tags| ==> (s.reactor.tags[i] <==> l.tags[i] == tag))
    && l.woken == s.reactor.woken
    && (tag in l.wakers <==> s.reactor.stored)
    && (tag in l.wakers ==> l.wakers[tag].task == WakeChain.RECEIVER)
  }

  lemma RunsFrom(s: WakeChain.State, step: WakeChain.Step, rest: seq<WakeChain.Step>)
    requires WakeChain.Enabled(s, step) && WakeChain.Runs(WakeChain.Apply(s, step), rest)
    ensures WakeChain.Runs(s, [step] + rest)
    ensures WakeChain.After(s, [step] + rest) == WakeChain.After(WakeChain.Apply(s, step), rest)
  {
    assert ([step] + rest)[1..] == rest;
  }

  lemma SenderSteps(s: WakeChain.State, i: nat)
    requires i < |s.senders| && s.senders[i].phase.AtSend?
    requires |s.channel.queue| < s.channel.bound && |s.reactor.tags| < TAG_CAPACITY
    ensures var step := WakeChain.SenderStep(i);
            var v := s.senders[i].value;
            && WakeChain.Runs(s, [step, step, step, step])
            && WakeChain.After(s, [step, step, step, step]) == s.(
                 senders := s.senders[i := s.senders[i].(phase := WakeChain.Finished)],
                 channel := s.channel.(
                   queue := s.channel.queue + [v], count := s.channel.count + 1, sent := s.channel.sent + [v]),
                 reactor := s.reactor.(tags := s.reactor.tags + [true], woken := true))
  {
    var step := WakeChain.SenderStep(i);
    var s1 := WakeChain.Apply(s, step);
    var s2 := WakeChain.Apply(s1, step);
    var s3 := WakeChain.Apply(s2, step);
    RunsFrom(s3, step, []);
    RunsFrom(s2, step, [step]);
    RunsFrom(s1, step, [step, step]);
    RunsFrom(s, step, [step, step, step]);
    assert [step] + [step, step, step] == [step, step, step, step];
  }

  /** The four steps of a sender with nothing in between are one call of send. */
  lemma SendIsSendCall(l: Link<WakeChain.Message>, s: WakeChain.State, tag: ReactorTag, i: nat)
    requires Represents(l, s, tag) && i < |s.senders| && s.senders[i].phase.AtSend?
    requires |s.channel.queue| < s.channel.bound && |s.reactor.tags| < TAG_CAPACITY
    ensures var step := WakeChain.SenderStep(i);
            var steps := [step, step, step, step];
            var (l', out) := SendCall(l, tag, s.senders[i].value);
            && WakeChain.Runs(s, steps)
            && out == Accepted
            && Represents(l', WakeChain.After(s, steps), tag)
            && WakeChain.After(s, steps).senders == s.senders[i := s.senders[i].(phase := WakeChain.Finished)]
  {
    SenderSteps(s, i);
  }

  /** A send that has to wait is a sender that has no step. */
  lemma WaitingSendIsStuck(l: Link<WakeChain.Message>, s: WakeChain.State, tag: ReactorTag, i: nat)
    requires Represents(l, s, tag) && i < |s.senders| && s.senders[i].phase.AtSend?
    ensures SendCall(l, tag, s.senders[i].value).1 == Waits <==> !WakeChain.Enabled(s, WakeChain.SenderStep(i))
  {
  }

  /** The steps of a receive with nothing in between are one call of poll_recv. */
  lemma RecvIsRecvCall(l: Link<WakeChain.Message>, s: WakeChain.State, tag: ReactorTag, e: nat, w: Waker)
    requires Represents(l, s, tag) && l.count == |l.queue|
    requires e < |s.turns| && s.turns[e].AtRecv? && w.task == WakeChain.RECEIVER
    ensures var step := WakeChain.TurnStep(e);
            var steps := if l.count == 0 then [step] else [step, step, step];
            var (l', p) := RecvCall(l, tag, w);
            && WakeChain.Runs(s, steps)
            && Represents(l', WakeChain.After(s, steps), tag)
            && WakeChain.After(s, steps).channel.received
               == s.channel.received + (if p.Ready? then [p.value.value] else [])
  {
    var step := WakeChain.TurnStep(e);
    var s1 := WakeChain.Apply(s, step);
    if l.count == 0 {
      RunsFrom(s, step, []);
    } else {
      var s2 := WakeChain.Apply(s1, step);
      RunsFrom(s2, step, []);
      RunsFrom(s1, step, [step]);
      RunsFrom(s, step, [step, step]);
      assert [step] + [step, step] == [step, step, step];
    }
  }

  /** One round of the reactor's drain: it takes the oldest tag, and submits the task stored for that tag. */
  lemma DrainRoundIsWake(l: Link<WakeChain.Message>, s: WakeChain.State, tag: ReactorTag)
    requires Represents(l, s, tag) && s.reactor.phase.Draining? && l.tags != [] && WakeChain.CanSubmit(s)
    ensures var round := [WakeChain.ReactorStep, WakeChain.ReactorStep];
            var mine := if tag in l.wakers then map[tag := l.wakers[tag]] else map[];
            var woken := WakersOf(l.tags[..1], mine);
            && WakeChain.Runs(s, round)
            && Represents(l.(tags := l.tags[1..]), WakeChain.After(s, round), tag)
            && WakeChain.After(s, round).d ==
                 if woken == [] then s.d else SubmitCall(s.d, {}, Copy(woken[0].task, 0)).0
  {
    var s1 := WakeChain.Apply(s, WakeChain.ReactorStep);
    assert s1.d == s.d;
    RunsFrom(s1, WakeChain.ReactorStep, []);
    RunsFrom(s, WakeChain.ReactorStep, [WakeChain.ReactorStep]);
    assert [WakeChain.ReactorStep] + [WakeChain.ReactorStep] == [WakeChain.ReactorStep, WakeChain.ReactorStep];
    assert l.tags[..1] == [l.tags[0]] && [l.tags[0]][1..] == [];
  }

  // ---------------------------------------------------------------------------
  // Histories of one channel whose calls do not overlap

  datatype Op<T> = SendOp(value: T) | RecvOp(waker: Waker) | DrainOp

  function LinkStep<T>(l: Link<T>, tag: ReactorTag, op: Op<T>): Link<T> {
    match op
    case SendOp(v) => SendCall(l, tag, v).0
    case RecvOp(w) => RecvCall(l, tag, w).0
    case DrainOp => l.(tags := [], woken := false)
  }

  function LinkAt<T>(l: Link<T>, tag: ReactorTag, h: seq<Op<T>>, i: nat): Link<T>
    requires i <= |h|
  {
    if i == 0 then l else LinkStep(LinkAt(l, tag, h, i - 1), tag, h[i - 1])
  }

  /** What an operation puts into the channel. */
  function Puts<T>(l: Link<T>, tag: ReactorTag, op: Op<T>): seq<T> {
    if op.SendOp? && !SendCall(l, tag, op.value).1.Waits? then [op.value] else []
  }

  /** What an operation takes out of it. */
  function Takes<T>(l: Link<T>, tag: ReactorTag, op: Op<T>): seq<T> {
    if !op.RecvOp? then []
    else match RecvCall(l, tag, op.waker).1
         case Ready(Value(v)) => [v]
         case _ => []
  }

  function SentBy<T>(l: Link<T>, tag: ReactorTag, h: seq<Op<T>>, i: nat): seq<T>
    requires i <= |h|
  {
    if i == 0 then [] else SentBy(l, tag, h, i - 1) + Puts(LinkAt(l, tag, h, i - 1), tag, h[i - 1])
  }

  function TakenBy<T>(l: Link<T>, tag: ReactorTag, h: seq<Op<T>>, i: nat): seq<T>
    requires i <= |h|
  {
    if i == 0 then [] else TakenBy(l, tag, h, i - 1) + Takes(LinkAt(l, tag, h, i - 1), tag, h[i - 1])
  }

  lemma StepConserves<T>(l: Link<T>, tag: ReactorTag, op: Op<T>)
    requires |l.queue| <= l.bound && l.count == |l.queue|
    ensures var l' := LinkStep(l, tag, op);
            && l'.bound == l.bound && |l'.queue| <= l.bound && l'.count == |l'.queue|
            && l.queue + Puts(l, tag, op) == Takes(l, tag, op) + l'.queue
  {
  }

  /**
   What goes in comes out, in order and once, and the count is the length of the queue.
   */
  lemma {:induction false} ChannelConserves<T>(l: Link<T>, tag: ReactorTag, h: seq<Op<T>>, i: nat)
    requires l.queue == [] && l.count == 0 && i <= |h|
    ensures var l' := LinkAt(l, tag, h, i);
            && l'.bound == l.bound && |l'.queue| <= l.bound && l'.count == |l'.queue|
            && SentBy(l, tag, h, i) == TakenBy(l, tag, h, i) + l'.queue
  {
    if i > 0 {
      ChannelConserves(l, tag, h, i - 1);
      var was := LinkAt(l, tag, h, i - 1);
      StepConserves(was, tag, h[i - 1]);
      var (sent, puts) := (SentBy(l, tag, h, i - 1), Puts(was, tag, h[i - 1]));
      assert [] + sent == sent && [] + (sent + puts) == sent + puts;
      RingBuffers.Regroup([], sent, puts, TakenBy(l, tag, h, i - 1), was.queue,
                          Takes(was, tag, h[i - 1]), LinkAt(l, tag, h, i).queue);
    }
  }

  /** A poll is ready exactly when a value sent has not been taken, and then with the oldest of them. */
  lemma RecvReadyIff<T>(l: Link<T>, tag: ReactorTag, h: seq<Op<T>>, i: nat)
    requires l.queue == [] && l.count == 0 && i < |h| && h[i].RecvOp?
    ensures var sent, taken := SentBy(l, tag, h, i), TakenBy(l, tag, h, i);
            var p := RecvCall(LinkAt(l, tag, h, i), tag, h[i].waker).1;
            && |taken| <= |sent|
            && (p.Ready? <==> |taken| < |sent|)
            && (p.Ready? ==> p.value == Value(sent[|taken|]))
  {
    ChannelConserves(l, tag, h, i);
  }
}
