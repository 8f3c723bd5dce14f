/**
 Reading from a non-blocking socket: try, and when that would block, wait for the reactor.
 Writing and accepting follow the same loop.

 `HoochTcpStream.PollRead` is one poll of that loop. The step model lets the reader, the
 data and the event loop interleave.
 Events are edge-triggered: one is raised when data arrives, not while data is there. One
 task waits on the token. The reader is never left parked with data and nothing to wake it,
 even when the data arrives between its failed attempt and its poll of the reactor.
 */
module Readiness {
  import opened Wrappers
  import opened Reactors

  // ---------------------------------------------------------------------------
  // One poll of a read, a write or an accept

  /** How an attempt on the socket ends. */
  datatype Attempt = Moved(n: nat) | Blocks | Fails

  /** The socket, by how the coming attempts on it end. */
  class Socket {
    var attempts: seq<Attempt>

    constructor (attempts: seq<Attempt>)
      ensures this.attempts == attempts
    {
      this.attempts := attempts;
    }

    method Try() returns (a: Attempt)
      modifies this
      ensures a == NextAttempt(old(attempts), 0) && attempts == Rest(old(attempts), 1)
    {
      if attempts == [] {
        return Blocks;
      }
      a := attempts[0];
      attempts := attempts[1..];
    }
  }

  function NextAttempt(attempts: seq<Attempt>, k: nat): Attempt {
    if k < |attempts| then attempts[k] else Blocks
  }

  function Rest(attempts: seq<Attempt>, k: nat): seq<Attempt> {
    if k < |attempts| then attempts[k..] else []
  }

  /** How many attempts a poll makes. */
  function TriesOf(waiting: bool, status: Option<Status>, first: Attempt): nat {
    if status == Some(Happened) then (if !waiting && first == Blocks then 2 else 1)
    else if waiting then 0
    else 1
  }

  /** The answer is the outcome of the last attempt, unless there is none or it would block. */
  function AnswerOf(tries: nat, attempts: seq<Attempt>): Poll<Attempt> {
    if tries == 0 || NextAttempt(attempts, tries - 1) == Blocks then Pending else Ready(NextAttempt(attempts, tries - 1))
  }

  /** A poll that reaches the reactor uses up a recorded event; a pending one leaves the waker of its task. */
  function StatusLeft(waiting: bool, status: Option<Status>, first: Attempt, p: Poll<Attempt>, w: Waker): Option<Status> {
    if p.Pending? then
      (if status.Some? && status.value.Awaited? && WillWake(status.value.waker, w) then status else Some(Awaited(w)))
    else if waiting || first == Blocks then None
    else status
  }

  class HoochTcpStream {
    const token: Token
    const stream: Socket
    /** The read in progress waits for the reactor. */
    var waiting: bool

    constructor (token: Token, stream: Socket)
      ensures this.token == token && this.stream == stream && !waiting
    {
      this.token, this.stream, waiting := token, stream, false;
    }

    /**
     Try, and poll the reactor when that would block. A call that waits for the reactor makes no
     attempt unless an event was recorded. A first attempt that would block is followed by a
     second one exactly if an event was recorded that the call has not used up; so a pending
     call has used up the event, and has left a waker of its task with the reactor.
     */
    method PollRead(reactor: Reactor, w: Waker) returns (p: Poll<Attempt>, tries: nat)
      modifies `waiting, stream, reactor`statuses
      ensures stream.attempts == Rest(old(stream.attempts), tries)
      ensures var (status, attempts) := (StatusIn(old(reactor.statuses), token), old(stream.attempts));
              && tries == TriesOf(old(waiting), status, NextAttempt(attempts, 0))
              && p == AnswerOf(tries, attempts)
              && waiting == p.Pending?
      ensures tries == 0 <==> old(waiting) && StatusIn(old(reactor.statuses), token) != Some(Happened)
      ensures tries == 2 <==> !old(waiting) && StatusIn(old(reactor.statuses), token) == Some(Happened)
                              && NextAttempt(old(stream.attempts), 0) == Blocks
      ensures tries <= 2
      ensures p.Ready? <==> tries > 0 && NextAttempt(old(stream.attempts), tries - 1) != Blocks
      ensures p.Ready? ==> p.value == NextAttempt(old(stream.attempts), tries - 1)
      ensures OnlyStatusChanges(old(reactor.statuses), reactor.statuses, token, StatusIn(reactor.statuses, token))
      ensures p.Pending? ==> StatusIn(reactor.statuses, token).Some?
                             && reactor.statuses[token].Awaited? && reactor.statuses[token].waker.task == w.task
      ensures StatusIn(reactor.statuses, token) ==
                StatusLeft(old(waiting), StatusIn(old(reactor.statuses), token), NextAttempt(old(stream.attempts), 0), p, w)
    {
      tries := 0;
      if waiting {
        var answer := reactor.Poll(token, w);
        if answer.Pending? {
          return Pending, tries;
        }
        waiting := false;
      }
      while true
        invariant !waiting && tries <= 1
        invariant stream.attempts == Rest(old(stream.attempts), tries)
        invariant forall t: Token :: t != token ==> StatusIn(reactor.statuses, t) == StatusIn(old(reactor.statuses), t)
        invariant old(waiting) ==>
                    tries == 0 && StatusIn(reactor.statuses, token).None? && StatusIn(old(reactor.statuses), token) == Some(Happened)
        invariant !old(waiting) && tries == 0 ==> StatusIn(reactor.statuses, token) == StatusIn(old(reactor.statuses), token)
        invariant tries == 1 ==> StatusIn(reactor.statuses, token).None? && NextAttempt(old(stream.attempts), 0) == Blocks
                                 && StatusIn(old(reactor.statuses), token) == Some(Happened)
        decreases 1 - tries
      {
        var a := stream.Try();
        tries := tries + 1;
        if a != Blocks {
          return Ready(a), tries;
        }
        waiting := true;
        var answer := reactor.Poll(token, w);
        if answer.Pending? {
          return Pending, tries;
        }
        waiting := false;
      }
    }
  }

  // ---------------------------------------------------------------------------
  // The reader, the data and the reactor, interleaved

  datatype Reader =
    | Trying              // before the read
    | WouldBlock          // has found nothing, before the poll of the reactor
    | Parked              // has returned pending
    | Returned(n: nat)    // has read

  /**
   Bytes to read, an event raised but not yet handled, the status of the token, the
   reader, and a wake of its task that is not yet followed by a poll.
   */
  datatype State = State(available: nat, edge: bool, status: Option<Status>, reader: Reader, wake: bool)

  datatype Step =
    | Arrive(n: nat)                // data comes in
    | Writable                      // an event of another kind on the same token
    | Deliver                       // the event loop handles the event
    | Read(n: nat)                  // the attempt to read
    | PollReactor(waker: Waker)     // the poll after a failed attempt
    | Resume                        // the wake leads to a poll of the task
    | Spurious                      // so does something else
    | Again                         // the next call of `read`

  predicate Enabled(s: State, step: Step) {
    match step
    case Arrive(n) => n > 0
    case Writable => true
    case Deliver => s.edge
    case Read(n) => s.reader.Trying? && n <= s.available && (s.available > 0 ==> n > 0)
    case PollReactor(_) => s.reader.WouldBlock?
    case Resume => s.reader.Parked? && s.wake
    case Spurious => s.reader.Parked?
    case Again => s.reader.Returned?
  }

  function Apply(s: State, step: Step): State
    requires Enabled(s, step)
  {
    match step
    case Arrive(n) => s.(available := s.available + n, edge := true)
    case Writable => s.(edge := true)
    case Deliver =>
      var (status, woken) := EventStatus(s.status);
      s.(edge := false, status := status, wake := s.wake || woken.Some?)
    case Read(n) =>
      if s.available == 0 then s.(reader := WouldBlock)
      else s.(available := s.available - n, reader := Returned(n))
    case PollReactor(w) =>
      var (status, answer) := PollStatus(s.status, w);
      s.(status := status, reader := if answer.Ready? then Trying else Parked)
    case Resume => s.(reader := WouldBlock, wake := false)
    case Spurious => s.(reader := WouldBlock)
    case Again => s.(reader := Trying)
  }

  predicate Runs(s: State, steps: seq<Step>)
    decreases |steps|
  {
    steps == [] || (Enabled(s, steps[0]) && Runs(Apply(s, steps[0]), steps[1..]))
  }

  function After(s: State, steps: seq<Step>): State
    requires Runs(s, steps)
    decreases |steps|
  {
    if steps == [] then s else After(Apply(s, steps[0]), steps[1..])
  }

  /** Data that the reader does not know of has an event, raised or recorded; a parked reader has a waker or a wake. */
  predicate Inv(s: State) {
    && (s.available > 0 && (s.reader.WouldBlock? || s.reader.Parked?) ==> s.edge || s.status == Some(Happened))
    && (s.reader.Parked? ==> s.status.Some? && (s.status.value.Happened? ==> s.wake))
  }

  lemma {:induction false} RunKeepsInv(s: State, steps: seq<Step>)
    requires Inv(s) && Runs(s, steps)
    ensures Inv(After(s, steps))
    decreases |steps|
  {
    if steps != [] {
      RunKeepsInv(Apply(s, steps[0]), steps[1..]);
    }
  }

  // ---------------------------------------------------------------------------
  // A poll is a run of these steps

  /** The attempt fits the bytes there are. */
  predicate Fits(available: nat, a: Attempt) {
    match a
    case Moved(n) => 0 < n <= available
    case Blocks => available == 0
    case Fails => false
  }

  /** Data may arrive before an attempt; an attempt that would block is followed by a poll of the reactor. */
  function AttemptSteps(arriving: nat, a: Attempt, w: Waker): seq<Step> {
    (if arriving > 0 then [Arrive(arriving)] else [])
    + (match a
       case Moved(n) => [Read(n)]
       case _ => [Read(0), PollReactor(w)])
  }

  function PollSteps(waiting: bool, status: Option<Status>, attempts: seq<Attempt>, arriving: seq<nat>, w: Waker): seq<Step>
    requires |arriving| == 2
  {
    var tries := TriesOf(waiting, status, NextAttempt(attempts, 0));
    (if waiting then [PollReactor(w)] else [])
    + (if tries > 0 then AttemptSteps(arriving[0], NextAttempt(attempts, 0), w) else [])
    + (if tries > 1 then AttemptSteps(arriving[1], NextAttempt(attempts, 1), w) else [])
  }

  lemma {:induction false} RunsConcat(s: State, a: seq<Step>, b: seq<Step>)
    requires Runs(s, a) && Runs(After(s, a), b)
    ensures Runs(s, a + b) && After(s, a + b) == After(After(s, a), b)
    decreases |a|
  {
    if a == [] {
      assert a + b == b;
    } else {
      RunsConcat(Apply(s, a[0]), a[1..], b);
      assert (a + b)[1..] == a[1..] + b;
    }
  }

  lemma OneStep(s: State, step: Step)
    requires Enabled(s, step)
    ensures Runs(s, [step]) && After(s, [step]) == Apply(s, step)
  {
    assert [step][1..] == [] && Runs(Apply(s, step), []);
  }

  lemma AttemptRuns(s: State, arriving: nat, a: Attempt, w: Waker)
    requires s.reader.Trying? && Fits(s.available + arriving, a)
    ensures Runs(s, AttemptSteps(arriving, a, w))
    ensures var s' := After(s, AttemptSteps(arriving, a, w));
            && s'.edge == (s.edge || arriving > 0) && s'.wake == s.wake
            && (a.Moved? ==> s'.reader == Returned(a.n) && s'.status == s.status && s'.available == s.available + arriving - a.n)
            && (a.Blocks? ==>
                  && s'.available == 0
                  && (s'.status, if s'.reader.Trying? then Ready(()) else Pending) == PollStatus(s.status, w)
                  && (s'.reader.Trying? || s'.reader.Parked?))
  {
    var s1 := if arriving > 0 then Apply(s, Arrive(arriving)) else s;
    var rest := if a.Moved? then [Read(a.n)] else [Read(0), PollReactor(w)];
    if a.Moved? {
      OneStep(s1, Read(a.n));
    } else {
      var s2 := Apply(s1, Read(0));
      OneStep(s1, Read(0));
      OneStep(s2, PollReactor(w));
      RunsConcat(s1, [Read(0)], [PollReactor(w)]);
      assert [Read(0)] + [PollReactor(w)] == rest;
    }
    if arriving > 0 {
      OneStep(s, Arrive(arriving));
      RunsConcat(s, [Arrive(arriving)], rest);
    } else {
      assert [] + rest == rest;
    }
  }

  /** The attempts that the poll makes fit the data. */
  predicate AttemptsFit(s: State, attempts: seq<Attempt>, arriving: seq<nat>)
    requires |arriving| == 2
  {
    var tries := TriesOf(s.reader.WouldBlock?, s.status, NextAttempt(attempts, 0));
    && (tries > 0 ==> Fits(s.available + arriving[0], NextAttempt(attempts, 0)))
    && (tries > 1 ==> Fits(arriving[1], NextAttempt(attempts, 1)))
  }

  lemma ThreeRuns(s: State, a: seq<Step>, b: seq<Step>, c: seq<Step>)
    requires Runs(s, a) && Runs(After(s, a), b) && Runs(After(After(s, a), b), c)
    ensures Runs(s, a + b + c) && After(s, a + b + c) == After(After(After(s, a), b), c)
  {
    RunsConcat(s, a, b);
    RunsConcat(s, a + b, c);
  }

  /**
   A poll of a read whose attempts fit the data is a run of the step model: it ends parked or
   with the bytes read, with the status that `PollRead` leaves.
   */
  lemma PollReadIsRun(s: State, attempts: seq<Attempt>, arriving: seq<nat>, w: Waker)
    requires s.reader.Trying? || s.reader.WouldBlock?
    requires |arriving| == 2 && AttemptsFit(s, attempts, arriving)
    ensures var waiting := s.reader.WouldBlock?;
            var steps := PollSteps(waiting, s.status, attempts, arriving, w);
            var p := AnswerOf(TriesOf(waiting, s.status, NextAttempt(attempts, 0)), attempts);
            && Runs(s, steps)
            && After(s, steps).status == StatusLeft(waiting, s.status, NextAttempt(attempts, 0), p, w)
            && After(s, steps).reader == match p case Pending => Parked case Ready(a) => Returned(a.n)
  {
    var waiting := s.reader.WouldBlock?;
    var tries := TriesOf(waiting, s.status, NextAttempt(attempts, 0));
    var none: seq<Step> := [];
    var (a, b, c) := (if waiting then [PollReactor(w)] else none,
                      if tries > 0 then AttemptSteps(arriving[0], NextAttempt(attempts, 0), w) else none,
                      if tries > 1 then AttemptSteps(arriving[1], NextAttempt(attempts, 1), w) else none);
    assert PollSteps(waiting, s.status, attempts, arriving, w) == a + b + c;
    if waiting {
      OneStep(s, PollReactor(w));
    }
    var s1 := After(s, a);
    if tries > 0 {
      AttemptRuns(s1, arriving[0], NextAttempt(attempts, 0), w);
    }
    var s2 := After(s1, b);
    if tries > 1 {
      AttemptRuns(s2, arriving[1], NextAttempt(attempts, 1), w);
    }
    ThreeRuns(s, a, b, c);
  }

  /** So a read that answers pending in a reachable state has an event to come if there is data. */
  lemma PendingReadHasEvent(s: State, attempts: seq<Attempt>, arriving: seq<nat>, w: Waker)
    requires Inv(s) && (s.reader.Trying? || s.reader.WouldBlock?)
    requires |arriving| == 2 && AttemptsFit(s, attempts, arriving)
    requires AnswerOf(TriesOf(s.reader.WouldBlock?, s.status, NextAttempt(attempts, 0)), attempts).Pending?
    ensures var steps := PollSteps(s.reader.WouldBlock?, s.status, attempts, arriving, w);
            Runs(s, steps) && After(s, steps).reader.Parked?
            && (After(s, steps).available > 0 ==> After(s, steps).edge)
  {
    PollReadIsRun(s, attempts, arriving, w);
    RunKeepsInv(s, PollSteps(s.reader.WouldBlock?, s.status, attempts, arriving, w));
  }

  /** A socket just registered: an event is raised if there is data. */
  predicate Registered(s: State) {
    s.status.None? && s.reader.Trying? && !s.wake && (s.available > 0 ==> s.edge)
  }

  /** In every reachable state, a reader parked on data has an event to come, or one recorded and its wake outstanding. */
  lemma ReadinessIsNeverLost(s: State, steps: seq<Step>)
    requires Registered(s) && Runs(s, steps)
    ensures var s' := After(s, steps);
            s'.reader.Parked? && s'.available > 0 ==> s'.edge || (s'.status == Some(Happened) && s'.wake)
  {
    RunKeepsInv(s, steps);
  }

  /** What the system does by itself for a parked reader: handle the event, poll the task, try again. */
  function Served(s: State, w: Waker): State {
    var s1 := if s.edge then Apply(s, Deliver) else s;
    var s2 := if Enabled(s1, Resume) then Apply(s1, Resume) else s1;
    var s3 := if Enabled(s2, PollReactor(w)) then Apply(s2, PollReactor(w)) else s2;
    if Enabled(s3, Read(s3.available)) then Apply(s3, Read(s3.available)) else s3
  }

  /** From every reachable state, a parked reader with data reads it in at most these four steps. */
  lemma ParkedReaderIsServed(s: State, steps: seq<Step>, w: Waker)
    requires Registered(s) && Runs(s, steps)
    requires After(s, steps).reader.Parked? && After(s, steps).available > 0
    ensures Served(After(s, steps), w).reader == Returned(After(s, steps).available)
  {
    RunKeepsInv(s, steps);
  }
}
