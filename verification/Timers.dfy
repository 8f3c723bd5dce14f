/** Sleeping on a timer of the reactor, and racing a future against a sleep. */
module Timers {
  import opened Wrappers
  import opened Reactors

  class Sleep {
    const token: Token
    var hasPolled: bool
    /** The timer is kept so that the reactor goes on watching it. */
    var timerSet: bool

    constructor (token: Token)
      ensures this.token == token && !hasPolled && !timerSet
    {
      this.token := token;
      hasPolled, timerSet := false, false;
    }

    method Poll(reactor: Reactor, waker: Waker) returns (p: Poll<()>)
      modifies this, reactor`statuses
      ensures hasPolled && timerSet == (old(timerSet) || !old(hasPolled))
      ensures old(hasPolled) ==> reactor.statuses == old(reactor.statuses)
      ensures old(hasPolled) ==> (p.Ready? <==> StatusIn(reactor.statuses, token) == Some(Happened))
      ensures !old(hasPolled) ==>
                p.Pending? && timerSet && OnlyStatusChanges(old(reactor.statuses), reactor.statuses, token, Some(Awaited(waker)))
    {
      if !hasPolled {
        reactor.StatusStore(token, waker);
        timerSet := true;
        hasPolled := true;
        return Pending;
      }
      var progressed := reactor.HasTokenProgressed(token);
      return if progressed then Ready(()) else Pending;
    }
  }

  // ---------------------------------------------------------------------------
  // Histories of one sleep

  /** `Elsewhere` is anything that does not concern the sleep. */
  datatype SleepOp = SleepPoll(waker: Waker) | Expire | Elsewhere

  /** What the sleep does with the status of its token. */
  function SleepStatus(h: seq<SleepOp>, i: nat): (bool, Option<Status>)
    requires i <= |h|
  {
    if i == 0 then (false, None)
    else
      var (polled, status) := SleepStatus(h, i - 1);
      match h[i - 1]
      case SleepPoll(w) => (true, if polled then status else Some(Awaited(w)))
      case Expire => (polled, EventStatus(status).0)
      case Elsewhere => (polled, status)
  }

  predicate SleepReadyAt(h: seq<SleepOp>, i: nat)
    requires i < |h|
  {
    h[i].SleepPoll? && SleepStatus(h, i).0 && SleepStatus(h, i).1 == Some(Happened)
  }

  function SleepWakesAt(h: seq<SleepOp>, i: nat): Option<Waker>
    requires i < |h|
  {
    if h[i].Expire? then EventStatus(SleepStatus(h, i).1).1 else None
  }

  /** Operation `p` is the first poll. */
  predicate FirstPoll(h: seq<SleepOp>, p: nat) {
    p < |h| && h[p].SleepPoll? && forall k :: 0 <= k < p ==> !h[k].SleepPoll?
  }

  /** The timer has expired after the first poll `p` and before operation `i`. */
  predicate Expired(h: seq<SleepOp>, p: nat, i: nat)
    requires i <= |h|
  {
    exists j :: p < j < i && h[j].Expire?
  }

  lemma ExpiryLasts(h: seq<SleepOp>, p: nat, i: nat, j: nat)
    requires i <= j <= |h|
    ensures Expired(h, p, i) ==> Expired(h, p, j)
  {
    if k :| p < k < i && h[k].Expire? {
      assert k < j;
    }
  }

  lemma {:induction false} BeforeFirstPoll(h: seq<SleepOp>, p: nat, i: nat)
    requires FirstPoll(h, p) && i <= p
    ensures !SleepStatus(h, i).0
  {
    if i > 0 {
      BeforeFirstPoll(h, p, i - 1);
    }
  }

  lemma {:induction false} StatusOfSleep(h: seq<SleepOp>, p: nat, i: nat)
    requires FirstPoll(h, p) && p < i <= |h|
    ensures SleepStatus(h, i) == (true, if Expired(h, p, i) then Some(Happened) else Some(Awaited(h[p].waker)))
  {
    if i == p + 1 {
      BeforeFirstPoll(h, p, p);
    } else {
      StatusOfSleep(h, p, i - 1);
      if Expired(h, p, i - 1) {
        var j :| p < j < i - 1 && h[j].Expire?;
        assert Expired(h, p, i);
      } else if h[i - 1].Expire? {
        assert Expired(h, p, i);
      }
    }
  }

  /** A poll of a sleep is ready exactly when the timer has expired since the first poll, and stays ready. */
  lemma SleepReadyIff(h: seq<SleepOp>, p: nat, i: nat)
    requires FirstPoll(h, p) && i < |h| && h[i].SleepPoll?
    ensures SleepReadyAt(h, i) <==> i > p && Expired(h, p, i)
  {
    if i <= p {
      BeforeFirstPoll(h, p, i);
    } else {
      StatusOfSleep(h, p, i);
    }
  }

  /**
   An expiry wakes someone exactly when it is the first since the first poll, and then the
   waker of that first poll, whoever has polled since. There is no second wake.
   */
  lemma ExpiryWakesFirstPoller(h: seq<SleepOp>, p: nat, i: nat)
    requires FirstPoll(h, p) && p < i < |h| && h[i].Expire?
    ensures SleepWakesAt(h, i) == if Expired(h, p, i) then None else Some(h[p].waker)
    ensures forall j :: p < j < |h| && j != i && h[j].Expire? && SleepWakesAt(h, i).Some? ==> SleepWakesAt(h, j).None?
  {
    StatusOfSleep(h, p, i);
    forall j | p < j < |h| && j != i && h[j].Expire? && SleepWakesAt(h, i).Some?
      ensures SleepWakesAt(h, j).None?
    {
      StatusOfSleep(h, p, j);
      assert i < j ==> Expired(h, p, j);
    }
  }

  // ---------------------------------------------------------------------------
  // Timeout

  /** A future, by whether it has completed and with what. `polls` counts how often it was polled. */
  class Completion<T> {
    var value: Option<T>
    var polls: nat

    constructor ()
      ensures value == None && polls == 0
    {
      value, polls := None, 0;
    }

    /** Later completions change nothing. */
    method Complete(v: T)
      modifies `value
      ensures value == if old(value).Some? then old(value) else Some(v)
    {
      if value.None? {
        value := Some(v);
      }
    }

    method Poll() returns (p: Poll<T>)
      modifies `polls
      ensures polls == old(polls) + 1
      ensures p == match value case None => Pending case Some(v) => Ready(v)
    {
      polls := polls + 1;
      match value
      case None => return Pending;
      case Some(v) => return Ready(v);
    }
  }

  datatype TimeoutResult<+T> = Ok(value: T) | TimeoutError

  /** A poll of a timeout: the sleep comes first. */
  function Contest<T>(expired: bool, value: Option<T>): Poll<TimeoutResult<T>> {
    if expired then Ready(TimeoutError)
    else match value
         case None => Pending
         case Some(v) => Ready(Ok(v))
  }

  class Timeout<T> {
    const fut: Completion<T>
    const sleep: Sleep

    constructor (fut: Completion<T>, sleep: Sleep)
      ensures this.fut == fut && this.sleep == sleep
    {
      this.fut := fut;
      this.sleep := sleep;
    }

    /** The future is polled only if the sleep is pending. */
    method Poll(reactor: Reactor, w: Waker) returns (p: Poll<TimeoutResult<T>>)
      modifies sleep, reactor`statuses, fut`polls
      ensures var expired := old(sleep.hasPolled) && StatusIn(old(reactor.statuses), sleep.token) == Some(Happened);
              && p == Contest(expired, fut.value)
              && fut.polls == if expired then old(fut.polls) else old(fut.polls) + 1
      ensures sleep.hasPolled
      ensures old(sleep.hasPolled) ==> reactor.statuses == old(reactor.statuses)
      ensures !old(sleep.hasPolled) ==>
                OnlyStatusChanges(old(reactor.statuses), reactor.statuses, sleep.token, Some(Awaited(w)))
    {
      var slept := sleep.Poll(reactor, w);
      if slept.Ready? {
        return Ready(TimeoutError);
      }
      var value := fut.Poll();
      if value.Ready? {
        return Ready(Ok(value.value));
      }
      return Pending;
    }
  }

  // ---------------------------------------------------------------------------
  // Histories of one timeout

  /** The future completes and the timer expires at any time, between polls. */
  datatype RaceOp<+T> = Polled(waker: Waker) | Completes(value: T) | Expires

  /** What the sleep inside sees. */
  function SleepView<T>(h: seq<RaceOp<T>>): (v: seq<SleepOp>)
    ensures |v| == |h|
  {
    seq(|h|, i requires 0 <= i < |h| =>
      match h[i]
      case Polled(w) => SleepPoll(w)
      case Completes(_) => Elsewhere
      case Expires => Expire)
  }

  /** What the future completed with before operation `i`. */
  function CompletedWith<T>(h: seq<RaceOp<T>>, i: nat): Option<T>
    requires i <= |h|
  {
    if i == 0 then None
    else if CompletedWith(h, i - 1).Some? || !h[i - 1].Completes? then CompletedWith(h, i - 1)
    else Some(h[i - 1].value)
  }

  lemma {:induction false} CompletionLasts<T>(h: seq<RaceOp<T>>, i: nat, j: nat)
    requires i <= j <= |h| && CompletedWith(h, i).Some?
    ensures CompletedWith(h, j) == CompletedWith(h, i)
    decreases j
  {
    if i < j {
      CompletionLasts(h, i, j - 1);
    }
  }

  function TimeoutAt<T>(h: seq<RaceOp<T>>, i: nat): Poll<TimeoutResult<T>>
    requires i < |h| && h[i].Polled?
  {
    Contest(SleepReadyAt(SleepView(h), i), CompletedWith(h, i))
  }

  /** Operation `i` is the first poll that is ready. */
  predicate ResolvesAt<T>(h: seq<RaceOp<T>>, i: nat) {
    && i < |h| && h[i].Polled? && TimeoutAt(h, i).Ready?
    && forall j :: 0 <= j < i && h[j].Polled? ==> TimeoutAt(h, j).Pending?
  }

  /** A poll after the completion of the future and before the expiry of the timer that the first poll `p` has set. */
  predicate PolledInTime<T>(h: seq<RaceOp<T>>, p: nat, i: nat) {
    i < |h| && h[i].Polled? && CompletedWith(h, i).Some? && !Expired(SleepView(h), p, i)
  }

  lemma FirstIsFirst<T>(h: seq<RaceOp<T>>, p: nat, i: nat)
    requires FirstPoll(SleepView(h), p) && i < |h| && h[i].Polled?
    ensures p <= i && (SleepReadyAt(SleepView(h), i) <==> Expired(SleepView(h), p, i))
  {
    assert SleepView(h)[i].SleepPoll?;
    SleepReadyIff(SleepView(h), p, i);
  }

  /** Of ready polls up to `i`, one is the first. */
  lemma {:induction false} SomePollResolves<T>(h: seq<RaceOp<T>>, i: nat) returns (k: nat)
    requires i < |h| && h[i].Polled? && TimeoutAt(h, i).Ready?
    ensures k <= i && ResolvesAt(h, k)
    decreases i
  {
    if j :| 0 <= j < i && h[j].Polled? && TimeoutAt(h, j).Ready? {
      k := SomePollResolves(h, j);
    } else {
      k := i;
    }
  }

  /**
   The race: a timeout yields the value exactly if some poll falls after the completion and
   before the expiry. That the future completes before the timer expires is not enough.
   */
  lemma ValueWinsIff<T>(h: seq<RaceOp<T>>, p: nat)
    requires FirstPoll(SleepView(h), p)
    ensures (exists i :: ResolvesAt(h, i) && TimeoutAt(h, i).value.Ok?) <==> (exists i :: PolledInTime(h, p, i))
    ensures forall i :: ResolvesAt(h, i) && TimeoutAt(h, i).value.Ok? ==>
              CompletedWith(h, |h|) == Some(TimeoutAt(h, i).value.value)
  {
    forall i: nat | ResolvesAt(h, i) && TimeoutAt(h, i).value.Ok?
      ensures PolledInTime(h, p, i) && CompletedWith(h, |h|) == Some(TimeoutAt(h, i).value.value)
    {
      FirstIsFirst(h, p, i);
      CompletionLasts(h, i, |h|);
    }
    if i: nat :| PolledInTime(h, p, i) {
      InTimeWins(h, p, i);
    }
  }

  lemma InTimeWins<T>(h: seq<RaceOp<T>>, p: nat, i: nat)
    requires FirstPoll(SleepView(h), p) && PolledInTime(h, p, i)
    ensures exists k :: ResolvesAt(h, k) && TimeoutAt(h, k).value.Ok?
  {
    FirstIsFirst(h, p, i);
    var k := SomePollResolves(h, i);
    FirstIsFirst(h, p, k);
    ExpiryLasts(SleepView(h), p, k, i);
    assert ResolvesAt(h, k) && TimeoutAt(h, k).value.Ok?;
  }

  /** And a timeout fails exactly if it resolves without such a poll. */
  lemma TimeoutFailsIff<T>(h: seq<RaceOp<T>>, p: nat, i: nat)
    requires FirstPoll(SleepView(h), p) && ResolvesAt(h, i)
    ensures TimeoutAt(h, i).value.TimeoutError? <==> forall j :: 0 <= j <= i ==> !PolledInTime(h, p, j)
    ensures TimeoutAt(h, i).value.TimeoutError? ==> Expired(SleepView(h), p, i)
  {
    FirstIsFirst(h, p, i);
    forall j | 0 <= j <= i && PolledInTime(h, p, j)
      ensures j == i
    {
      FirstIsFirst(h, p, j);
      assert TimeoutAt(h, j).Ready?;
    }
    assert TimeoutAt(h, i).value.Ok? ==> PolledInTime(h, p, i);
  }

  /** The future completes, then the timer expires, then the next poll comes: the value is lost. */
  lemma CompletingFirstCanLose<T>(w: Waker, v: T)
    ensures var h := [Polled(w), Completes(v), Expires, Polled(w)];
            FirstPoll(SleepView(h), 0) && ResolvesAt(h, 3) && TimeoutAt(h, 3) == Ready(TimeoutError)
  {
    var h := [Polled(w), Completes(v), Expires, Polled(w)];
    var view := SleepView(h);
    assert view == [SleepPoll(w), Elsewhere, Expire, SleepPoll(w)];
    FirstIsFirst(h, 0, 0);
    FirstIsFirst(h, 0, 3);
    assert view[2].Expire? && Expired(view, 0, 3);
    assert CompletedWith(h, 0) == None;
  }
}
