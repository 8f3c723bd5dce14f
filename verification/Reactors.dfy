/**
 The reactor: a status per event token, a waker per channel tag, and the buffer of tags.

 `PollStatus`, `EventStatus` and `Awaited` say what an access does to the status of its
 token; the statuses mutex makes each access one step. The lemmas characterise, for any
 history of one token, when a poll is ready and whom an event wakes.
 */
module Reactors {
  import opened Wrappers
  import opened RingBuffers
  import opened Dispatching

  type Token = nat
  type ReactorTag = nat

  /** A waker of a task. Clones differ only in number. */
  datatype Waker = Waker(task: TaskId, clone: nat)

  /** Both wakers wake the same task. */
  predicate WillWake(a: Waker, b: Waker) {
    a.task == b.task
  }

  datatype Status = Awaited(waker: Waker) | Happened

  // ---------------------------------------------------------------------------
  // One access to the status of a token

  function PollStatus(status: Option<Status>, w: Waker): (Option<Status>, Poll<()>) {
    match status
    case None => (Some(Awaited(w)), Pending)
    case Some(Awaited(stored)) => (if WillWake(stored, w) then status else Some(Awaited(w)), Pending)
    case Some(Happened) => (None, Ready(()))
  }

  /** An event records itself, and takes the waker out if there is one. */
  function EventStatus(status: Option<Status>): (Option<Status>, Option<Waker>) {
    (Some(Happened), if status.Some? && status.value.Awaited? then Some(status.value.waker) else None)
  }

  // ---------------------------------------------------------------------------
  // Histories of one token

  datatype Op = PollBy(waker: Waker) | Event | StoreBy(waker: Waker)

  function StatusStep(status: Option<Status>, op: Op): Option<Status> {
    match op
    case PollBy(w) => PollStatus(status, w).0
    case Event => EventStatus(status).0
    case StoreBy(w) => Some(Awaited(w))
  }

  /** The status after the first `i` operations. */
  function StatusAt(h: seq<Op>, i: nat): Option<Status>
    requires i <= |h|
  {
    if i == 0 then None else StatusStep(StatusAt(h, i - 1), h[i - 1])
  }

  /** Operation `i` is a poll that is ready. */
  predicate ReadyAt(h: seq<Op>, i: nat)
    requires i < |h|
  {
    h[i].PollBy? && PollStatus(StatusAt(h, i), h[i].waker).1.Ready?
  }

  /** Operation `i` is an event, and this is the waker it wakes. */
  function WokenAt(h: seq<Op>, i: nat): Option<Waker>
    requires i < |h|
  {
    if h[i].Event? then EventStatus(StatusAt(h, i)).1 else None
  }

  /** From after operation `j` up to operation `i`, nothing uses up or overwrites an event. */
  predicate Undisturbed(h: seq<Op>, j: nat, i: nat)
    requires i <= |h|
  {
    forall k :: j < k < i ==> !ReadyAt(h, k) && !h[k].StoreBy?
  }

  /** An event before operation `i` that nothing has used up or overwritten. */
  predicate Recorded(h: seq<Op>, i: nat)
    requires i <= |h|
  {
    exists j :: 0 <= j < i && h[j].Event? && Undisturbed(h, j, i)
  }

  lemma RecordedNext(h: seq<Op>, i: nat)
    requires i < |h|
    ensures Recorded(h, i + 1) <==> h[i].Event? || (Recorded(h, i) && !ReadyAt(h, i) && !h[i].StoreBy?)
  {
    if h[i].Event? {
      assert Undisturbed(h, i, i + 1);
    } else {
      if Recorded(h, i) && !ReadyAt(h, i) && !h[i].StoreBy? {
        var j :| 0 <= j < i && h[j].Event? && Undisturbed(h, j, i);
        assert Undisturbed(h, j, i + 1);
      }
      if Recorded(h, i + 1) {
        var j :| 0 <= j < i + 1 && h[j].Event? && Undisturbed(h, j, i + 1);
        assert Undisturbed(h, j, i);
      }
    }
  }

  lemma {:induction false} HappenedIff(h: seq<Op>, i: nat)
    requires i <= |h|
    ensures StatusAt(h, i) == Some(Happened) <==> Recorded(h, i)
  {
    if i > 0 {
      HappenedIff(h, i - 1);
      RecordedNext(h, i - 1);
    }
  }

  /**
   A poll is ready exactly when an event was recorded since the last ready poll. However many
   events there were, that poll uses them up: the next is ready only after another event.
   */
  lemma PollReadyIff(h: seq<Op>, i: nat)
    requires i < |h| && h[i].PollBy?
    ensures ReadyAt(h, i) <==> Recorded(h, i)
    ensures ReadyAt(h, i) ==> !Recorded(h, i + 1)
  {
    HappenedIff(h, i);
    HappenedIff(h, i + 1);
  }

  /**
   An event wakes someone exactly when the operation before it left a waker: a pending poll,
   whose task it wakes, or a store. Between two wakes there is another park, so a park is woken
   at most once.
   */
  lemma EventWakesLatestPoll(h: seq<Op>, i: nat)
    requires i < |h| && h[i].Event?
    ensures WokenAt(h, i).Some? <==> i > 0 && !h[i - 1].Event? && !ReadyAt(h, i - 1)
    ensures WokenAt(h, i).Some? ==> WokenAt(h, i).value.task == h[i - 1].waker.task
    ensures forall j :: i < j < |h| && WokenAt(h, j).Some? ==>
              exists k :: i < k < j && !h[k].Event? && !ReadyAt(h, k)
  {
    if i > 0 {
      assert StatusAt(h, i) == StatusStep(StatusAt(h, i - 1), h[i - 1]);
    }
    forall j | i < j < |h| && WokenAt(h, j).Some?
      ensures i < j - 1 && !h[j - 1].Event? && !ReadyAt(h, j - 1)
    {
      assert StatusAt(h, j) == StatusStep(StatusAt(h, j - 1), h[j - 1]);
    }
  }

  // ---------------------------------------------------------------------------
  // The reactor itself

  function StatusIn(statuses: map<Token, Status>, token: Token): Option<Status> {
    if token in statuses then Some(statuses[token]) else None
  }

  /** The same statuses, except for one token. */
  ghost predicate OnlyStatusChanges(before: map<Token, Status>, behind: map<Token, Status>, token: Token, status: Option<Status>) {
    && StatusIn(behind, token) == status
    && forall t: Token :: t != token ==> StatusIn(behind, t) == StatusIn(before, t)
  }

  /** The wakers of a sequence of tags, for those that have one. */
  function WakersOf(tags: seq<ReactorTag>, wakers: map<ReactorTag, Waker>): seq<Waker> {
    if tags == [] then []
    else (if tags[0] in wakers then [wakers[tags[0]]] else []) + WakersOf(tags[1..], wakers)
  }

  lemma WakersOfFirst(tag: ReactorTag, tags: seq<ReactorTag>, wakers: map<ReactorTag, Waker>)
    ensures WakersOf([tag] + tags, wakers) == (if tag in wakers then [wakers[tag]] else []) + WakersOf(tags, wakers)
  {
    assert ([tag] + tags)[1..] == tags;
  }

  /** One waker for each tag that has one, in the order of the tags. */
  lemma {:induction false} WakersInOrder(a: seq<ReactorTag>, tag: ReactorTag, b: seq<ReactorTag>, wakers: map<ReactorTag, Waker>)
    ensures WakersOf(a + [tag] + b, wakers)
         == WakersOf(a, wakers) + (if tag in wakers then [wakers[tag]] else []) + WakersOf(b, wakers)
    ensures WakersOf([], wakers) == []
  {
    if a == [] {
      assert a + [tag] + b == [tag] + b;
      WakersOfFirst(tag, b, wakers);
    } else {
      WakersInOrder(a[1..], tag, b, wakers);
      assert a + [tag] + b == [a[0]] + (a[1..] + [tag] + b);
      WakersOfFirst(a[0], a[1..] + [tag] + b, wakers);
    }
  }

  lemma {:induction false} TagWakes(tags: seq<ReactorTag>, wakers: map<ReactorTag, Waker>, tag: ReactorTag)
    requires tag in tags && tag in wakers
    ensures wakers[tag] in WakersOf(tags, wakers)
  {
    if tags[0] != tag {
      TagWakes(tags[1..], wakers, tag);
    }
  }

  class Reactor {
    const reactorTagBuffer: LockFreeBoundedRingBuffer<ReactorTag>
    var reactorTags: map<ReactorTag, Waker>
    var statuses: map<Token, Status>
    /** A mio wake that the event loop has not seen yet. */
    var mioWoken: bool

    ghost predicate Valid()
      reads this, reactorTagBuffer, reactorTagBuffer.buffer
    {
      reactorTagBuffer.Valid() && reactorTagBuffer.buffer.Length == TAG_CAPACITY
    }

    ghost function Tags(): seq<ReactorTag>
      requires Valid()
      reads this, reactorTagBuffer, reactorTagBuffer.buffer
    {
      reactorTagBuffer.Contents()
    }

    constructor ()
      ensures Valid() && Tags() == [] && reactorTags == map[] && statuses == map[] && !mioWoken
      ensures reactorTagBuffer.buffer.Length == 1_048_576
      ensures fresh(reactorTagBuffer) && fresh(reactorTagBuffer.buffer)
    {
      reactorTagBuffer := new LockFreeBoundedRingBuffer<ReactorTag>(TAG_CAPACITY);
      reactorTags := map[];
      statuses := map[];
      mioWoken := false;
    }

    method StatusStore(token: Token, waker: Waker)
      modifies `statuses
      ensures OnlyStatusChanges(old(statuses), statuses, token, Some(Awaited(waker)))
    {
      statuses := statuses[token := Awaited(waker)];
    }

    method HasTokenProgressed(token: Token) returns (progressed: bool)
      ensures progressed <==> StatusIn(statuses, token) == Some(Happened)
    {
      progressed := token in statuses && statuses[token].Happened?;
    }

    method StoreWakerChannel(tag: ReactorTag, waker: Waker)
      modifies `reactorTags
      ensures reactorTags == old(reactorTags)[tag := waker]
    {
      reactorTags := reactorTags[tag := waker];
    }

    /** False stands for the panic on a full buffer. */
    method RegisterReactorTag(tag: ReactorTag) returns (ok: bool)
      requires Valid()
      modifies reactorTagBuffer, reactorTagBuffer.buffer
      ensures Valid()
      ensures ok <==> |old(Tags())| < TAG_CAPACITY
      ensures Tags() == if ok then old(Tags()) + [tag] else old(Tags())
    {
      ok := reactorTagBuffer.Push(tag);
    }

    method RemoveTag(tag: ReactorTag)
      modifies `reactorTags
      ensures reactorTags == old(reactorTags) - {tag}
    {
      reactorTags := reactorTags - {tag};
    }

    method Poll(token: Token, waker: Waker) returns (p: Poll<()>)
      modifies `statuses
      ensures var (status, answer) := PollStatus(StatusIn(old(statuses), token), waker);
              p == answer && OnlyStatusChanges(old(statuses), statuses, token, status)
      ensures p.Ready? <==> StatusIn(old(statuses), token) == Some(Happened)
      ensures p.Ready? ==> token !in statuses
      ensures p.Pending? ==> token in statuses && statuses[token].Awaited? && statuses[token].waker.task == waker.task
    {
      if token !in statuses {
        statuses := statuses[token := Awaited(waker)];
        return Pending;
      }
      match statuses[token]
      case Awaited(stored) =>
        if !WillWake(stored, waker) {
          statuses := statuses[token := Awaited(waker)];
        }
        return Pending;
      case Happened =>
        statuses := statuses - {token};
        return Ready(());
    }

    /** The event loop on an event of a token other than its own. */
    method HandleEvent(token: Token) returns (woken: Option<Waker>)
      modifies `statuses
      ensures var (status, answer) := EventStatus(StatusIn(old(statuses), token));
              woken == answer && OnlyStatusChanges(old(statuses), statuses, token, status)
      ensures token in statuses && statuses[token] == Happened
      ensures woken == if token in old(statuses) && old(statuses)[token].Awaited? then Some(old(statuses)[token].waker) else None
    {
      woken := None;
      if token in statuses && statuses[token].Awaited? {
        woken := Some(statuses[token].waker);
      }
      statuses := statuses[token := Happened];
    }

    method PopTag() returns (next: Option<ReactorTag>)
      requires Valid()
      modifies reactorTagBuffer, reactorTagBuffer.buffer
      ensures Valid()
      ensures next.None? ==> old(Tags()) == [] && Tags() == []
      ensures next.Some? ==> old(Tags()) == [next.value] + Tags()
    {
      next := reactorTagBuffer.Pop();
    }

    /** Wake the task of one tag, if a waker is stored for it. */
    method WakeTag(tag: ReactorTag) returns (woken: seq<Waker>)
      ensures woken == if tag in reactorTags then [reactorTags[tag]] else []
    {
      woken := if tag in reactorTags then [reactorTags[tag]] else [];
    }

    /** The event loop on its own token: wake whoever stored a waker for a buffered tag, in order. */
    method DrainTags() returns (woken: seq<Waker>)
      requires Valid()
      modifies `mioWoken, reactorTagBuffer, reactorTagBuffer.buffer
      ensures Valid() && Tags() == [] && !mioWoken
      ensures woken == WakersOf(old(Tags()), reactorTags)
    {
      ghost var all := WakersOf(Tags(), reactorTags);
      mioWoken := false;
      woken := [];
      var next := PopTag();
      while next.Some?
        invariant Valid() && !mioWoken && reactorTags == old(reactorTags)
        invariant next.Some? ==> woken + WakersOf([next.value] + Tags(), reactorTags) == all
        invariant next.None? ==> Tags() == [] && woken == all
        decreases if next.Some? then 1 + |Tags()| else 0
      {
        ghost var tags := Tags();
        WakersOfFirst(next.value, tags, reactorTags);
        var more := WakeTag(next.value);
        assert woken + (more + WakersOf(tags, reactorTags)) == (woken + more) + WakersOf(tags, reactorTags);
        woken := woken + more;
        next := PopTag();
      }
    }
  }
}
