/** Spawning a task, and the handle that waits for its result or aborts it. */
module Spawners {
  import opened Wrappers
  import opened Dispatching
  import opened TaskManagers
  import opened Reactors
  import opened Channels
  import opened Tasks

  datatype JoinResult<+T> = Ok(value: T) | JoinHandleError

  /** The future that receives. It must not be polled again once it has finished. */
  datatype RecvFuture = NotMade | Made | Finished

  /** What a poll of a join handle does. */
  datatype JoinPoll<+T> = Waiting | Resolved(result: JoinResult<T>) | PolledAfterReady

  /** One poll of a handle: at most one receive, and none once that has finished. */
  function JoinCall<T>(f: RecvFuture, l: Link<T>, tag: ReactorTag, w: Waker): (RecvFuture, Link<T>, JoinPoll<T>) {
    if f.Finished? then (Finished, l, PolledAfterReady)
    else
      match RecvCall(l, tag, w)
      case (l', Pending) => (Made, l', Waiting)
      case (l', Ready(Value(v))) => (Finished, l', Resolved(Ok(v)))
      case (l', Ready(RecvError)) => (Finished, l', Resolved(JoinHandleError))
  }

  class JoinHandle<T> {
    const rx: BoundedReceiver<T>
    const abort: AbortFlag
    var hasAwaited: bool
    var recvFut: RecvFuture

    constructor (rx: BoundedReceiver<T>, abort: AbortFlag)
      ensures this.rx == rx && this.abort == abort && !hasAwaited && recvFut == NotMade
    {
      this.rx, this.abort := rx, abort;
      hasAwaited, recvFut := false, NotMade;
    }

    method Poll(w: Waker) returns (p: JoinPoll<T>)
      requires rx.shared.Valid()
      modifies this, rx.shared, rx.shared.reactor`reactorTags
      ensures rx.shared.Valid() && hasAwaited
      ensures (recvFut, rx.shared.State(), p) == JoinCall(old(recvFut), old(rx.shared.State()), rx.shared.tag, w)
      ensures recvFut == if p.Waiting? then Made else Finished
      ensures p.PolledAfterReady? <==> old(recvFut).Finished?
      ensures p.Waiting? <==> !old(recvFut).Finished? && old(rx.shared.queueCnt) == 0
      ensures rx.shared.reactor.reactorTags ==
                if p.Waiting? then old(rx.shared.reactor.reactorTags)[rx.shared.tag := w] else old(rx.shared.reactor.reactorTags)
      ensures p.Resolved? && p.result.Ok? ==> old(rx.shared.queue) == [p.result.value] + rx.shared.queue
      ensures p == Resolved(JoinHandleError) ==> old(rx.shared.queue) == []
    {
      hasAwaited := true;
      if recvFut.NotMade? {
        recvFut := Made;
      }
      if recvFut.Finished? {
        return PolledAfterReady;
      }
      var r := rx.PollRecv(w);
      match r
      case Pending => return Waiting;
      case Ready(Value(v)) =>
        recvFut := Finished;
        return Resolved(Ok(v));
      case Ready(RecvError) =>
        recvFut := Finished;
        return Resolved(JoinHandleError);
    }

    method Abort()
      modifies abort
      ensures abort.raised
    {
      abort.raised := true;
    }
  }

  /** A channel for one result, a task that shares its abort flag with the handle, one submission. */
  method Spawn<T>(tm: TaskManager, reactor: Reactor, tag: TaskId, rtag: ReactorTag, serial: nat, aborted: set<TaskId>)
    returns (handle: JoinHandle<T>, task: Task, tx: BoundedSender<T>, out: Outcome)
    requires tm.Valid() && reactor.Valid() && tag !in aborted
    modifies tm, tm.waitingTasks, tm.waitingTasks.buffer, tm.waitingExecutors, tm.waitingExecutors.buffer
    ensures tm.Valid()
    ensures (tm.State(), out) == SubmitCall(old(tm.State()), aborted, Copy(tag, serial))
    ensures fresh(handle) && fresh(task) && fresh(tx) && fresh(task.abort)
    ensures tx.shared == handle.rx.shared && fresh(tx.shared) && tx.shared.tag == rtag && tx.shared.reactor == reactor
    ensures tx.shared.bound == 1 && tx.shared.queue == [] && tx.shared.queueCnt == 0
    ensures task.tag == tag && task.pending && task.abort == handle.abort && !task.abort.raised
    ensures task.strong == Kept(out)
    ensures !handle.hasAwaited && handle.recvFut.NotMade?
  {
    var rx;
    tx, rx := BoundedChannel<T>(1, rtag, reactor);
    assert tx.shared.State().queue == [];
    var abort := new AbortFlag();
    task := new Task(tag, abort);
    handle := new JoinHandle(rx, abort);
    out := tm.RegisterOrExecuteNonBlockingTask(Copy(tag, serial), aborted);
    if out.Panicked? {
      task.strong := task.strong - 1;
    }
  }

  // ---------------------------------------------------------------------------
  // Histories of one handle and its channel

  datatype Op<T> = SendOp(value: T) | PollOp(waker: Waker) | DrainOp

  /** The future of the handle, and the channel, after the first `i` operations. */
  function HandleAt<T>(l: Link<T>, tag: ReactorTag, h: seq<Op<T>>, i: nat): (RecvFuture, Link<T>)
    requires i <= |h|
  {
    if i == 0 then (NotMade, l)
    else
      var (f, l') := HandleAt(l, tag, h, i - 1);
      match h[i - 1]
      case SendOp(v) => (f, SendCall(l', tag, v).0)
      case PollOp(w) => var (f', l'', _) := JoinCall(f, l', tag, w); (f', l'')
      case DrainOp => (f, l'.(tags := [], woken := false))
  }

  function PollAt<T>(l: Link<T>, tag: ReactorTag, h: seq<Op<T>>, i: nat): JoinPoll<T>
    requires i < |h|
  {
    if h[i].PollOp? then JoinCall(HandleAt(l, tag, h, i).0, HandleAt(l, tag, h, i).1, tag, h[i].waker).2 else Waiting
  }

  /** Operation `j` is the first send. */
  predicate FirstSend<T>(h: seq<Op<T>>, j: nat) {
    j < |h| && h[j].SendOp? && forall k :: 0 <= k < j ==> !h[k].SendOp?
  }

  lemma {:induction false} NothingSent<T>(l: Link<T>, tag: ReactorTag, h: seq<Op<T>>, i: nat)
    requires l.queue == [] && l.count == 0 && i <= |h| && forall k :: 0 <= k < i ==> !h[k].SendOp?
    ensures var (f, l') := HandleAt(l, tag, h, i);
            !f.Finished? && l'.queue == [] && l'.count == 0 && l'.bound == l.bound
  {
    if i > 0 {
      NothingSent(l, tag, h, i - 1);
    }
  }

  /** After the first send the handle has resolved, or that value is next. */
  lemma {:induction false} SomethingSent<T>(l: Link<T>, tag: ReactorTag, h: seq<Op<T>>, j: nat, i: nat)
    requires l.queue == [] && l.count == 0 && l.bound > 0 && FirstSend(h, j) && j < i <= |h|
    ensures var (f, l') := HandleAt(l, tag, h, i);
            && l'.count == |l'.queue|
            && (f.Finished? <==> exists k :: j < k < i && h[k].PollOp?)
            && (!f.Finished? ==> l'.queue != [] && l'.queue[0] == h[j].value)
  {
    if i == j + 1 {
      NothingSent(l, tag, h, j);
    } else {
      SomethingSent(l, tag, h, j, i - 1);
    }
  }

  /**
   A handle resolves at exactly one poll, the first after the first send; the result is `Ok`
   of the value of that send. Earlier polls wait, and no poll fails.
   */
  lemma ResolvesOnceWithFirstValue<T>(l: Link<T>, tag: ReactorTag, h: seq<Op<T>>, j: nat, i: nat)
    requires l.queue == [] && l.count == 0 && l.bound > 0 && FirstSend(h, j) && i < |h| && h[i].PollOp?
    ensures PollAt(l, tag, h, i) ==
              if i < j then Waiting
              else if exists k :: j < k < i && h[k].PollOp? then PolledAfterReady
              else Resolved(Ok(h[j].value))
  {
    if i < j {
      NothingSent(l, tag, h, i);
    } else {
      SomethingSent(l, tag, h, j, i);
    }
  }

  // ---------------------------------------------------------------------------
  // The task that awaits is woken

  /** After a poll that waits, until the next poll, the reactor holds the waker of that poll. */
  lemma {:induction false} WaitingPollIsStored<T>(l: Link<T>, tag: ReactorTag, h: seq<Op<T>>, j: nat, i: nat)
    requires j < i <= |h| && h[j].PollOp? && PollAt(l, tag, h, j) == Waiting
    requires forall k :: j < k < i ==> !h[k].PollOp?
    ensures var wakers := HandleAt(l, tag, h, i).1.wakers; tag in wakers && wakers[tag] == h[j].waker
  {
    if j < i - 1 {
      WaitingPollIsStored(l, tag, h, j, i - 1);
    }
  }

  /** After a send that goes through, until the next drain, its tag is buffered and the mio wake pending. */
  lemma {:induction false} SendIsBuffered<T>(l: Link<T>, tag: ReactorTag, h: seq<Op<T>>, j: nat, i: nat)
    requires j < i <= |h| && h[j].SendOp? && SendCall(HandleAt(l, tag, h, j).1, tag, h[j].value).1.Accepted?
    requires forall k :: j < k < i ==> !h[k].DrainOp?
    ensures HandleAt(l, tag, h, i).1.woken && tag in HandleAt(l, tag, h, i).1.tags
  {
    if j < i - 1 {
      SendIsBuffered(l, tag, h, j, i - 1);
    }
  }

  /** A poll that waits, then a send, then a drain: the drain wakes the task of that poll. */
  lemma AwaitingTaskIsWoken<T>(l: Link<T>, tag: ReactorTag, h: seq<Op<T>>, p: nat, j: nat, i: nat)
    requires p < i && j < i <= |h| && h[p].PollOp? && PollAt(l, tag, h, p) == Waiting
    requires h[j].SendOp? && SendCall(HandleAt(l, tag, h, j).1, tag, h[j].value).1.Accepted?
    requires forall k :: p < k < i ==> !h[k].PollOp?
    requires forall k :: j < k < i ==> !h[k].DrainOp?
    ensures var l' := HandleAt(l, tag, h, i).1; l'.woken && h[p].waker in WakersOf(l'.tags, l'.wakers)
  {
    WaitingPollIsStored(l, tag, h, p, i);
    SendIsBuffered(l, tag, h, j, i);
    TagWakes(HandleAt(l, tag, h, i).1.tags, HandleAt(l, tag, h, i).1.wakers, tag);
  }
}
