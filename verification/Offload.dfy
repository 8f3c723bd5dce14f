/**
 The futures that hand a blocking connect or bind to the pool: submit a job on the first
 poll, take its result on a later one.

 The class is the future; the step model lets its polls, spurious ones included, and the
 job of the pool interleave, with every access to the shared cell a step.
 */
module Offload {
  import opened Wrappers
  import opened ThreadPools

  /** The cell that the job fills and the future empties. */
  class Cell<T> {
    var value: Option<T>

    constructor ()
      ensures value == None
    {
      value := None;
    }
  }

  class OffloadFuture<T> {
    const state: Cell<T>
    const pool: HoochPool
    const job: Job
    var hasPolled: bool

    constructor (state: Cell<T>, pool: HoochPool, job: Job)
      ensures this.state == state && this.pool == pool && this.job == job && !hasPolled
    {
      this.state := state;
      this.pool := pool;
      this.job := job;
      hasPolled := false;
    }

    /** The first poll submits the job; later ones take the result once it is there. */
    method Poll() returns (p: Poll<T>)
      requires pool.Valid()
      modifies `hasPolled, state, pool
      ensures pool.Valid() && hasPolled
      ensures pool.State() == if old(hasPolled) then old(pool.State()) else ExecuteJob(old(pool.State()), job)
      ensures old(hasPolled) && old(state.value).Some? ==> p == Ready(old(state.value).value) && state.value == None
      ensures !(old(hasPolled) && old(state.value).Some?) ==> p.Pending? && state.value == old(state.value)
    {
      if !hasPolled {
        hasPolled := true;
        pool.Execute(job);
        return Pending;
      }
      if state.value.None? {
        return Pending;
      }
      var result := state.value.value;
      state.value := None;
      return Ready(result);
    }
  }

  // ---------------------------------------------------------------------------
  // Polls and the job, interleaved

  datatype FuturePhase<+T> =
    | Resting              // not being polled
    | Submitting           // has set the flag, before the hand-over of the job
    | Returning            // is about to return pending
    | Taking               // has seen a result, before it takes it
    | Resolved(result: T)

  datatype JobPhase<+T> =
    | Unsubmitted
    | Queued               // with a worker
    | Storing(result: T)   // has run, before the store
    | Waking               // has stored, before the wake
    | Ended

  /**
   `wake` is a wake of the task that no poll has followed yet. `submissions` and `produced`
   are histories: how often a job was handed over, and the results of the job.
   */
  datatype State<+T> = State(
    hasPolled: bool,
    cell: Option<T>,
    future: FuturePhase<T>,
    job: JobPhase<T>,
    wake: bool,
    submissions: nat,
    produced: seq<T>)

  datatype Step<+T> =
    | PollWoken | PollSpurious | Submit | Return | Take
    | RunJob(result: T) | StoreResult | WakeTask

  predicate Enabled<T>(s: State<T>, step: Step<T>) {
    match step
    case PollWoken => s.future.Resting? && s.wake
    case PollSpurious => s.future.Resting?
    case Submit => s.future.Submitting?
    case Return => s.future.Returning?
    case Take => s.future.Taking? && s.cell.Some?
    case RunJob(_) => s.job.Queued?
    case StoreResult => s.job.Storing?
    case WakeTask => s.job.Waking?
  }

  function BeginPoll<T>(s: State<T>): State<T> {
    if !s.hasPolled then s.(hasPolled := true, future := Submitting)
    else if s.cell.None? then s.(future := Returning)
    else s.(future := Taking)
  }

  function Apply<T>(s: State<T>, step: Step<T>): State<T>
    requires Enabled(s, step)
  {
    match step
    case PollWoken => BeginPoll(s.(wake := false))
    case PollSpurious => BeginPoll(s)
    case Submit => s.(future := Returning, job := Queued, submissions := s.submissions + 1)
    case Return => s.(future := Resting)
    case Take => s.(future := Resolved(s.cell.value), cell := None)
    case RunJob(r) => s.(job := Storing(r), produced := s.produced + [r])
    case StoreResult => s.(job := Waking, cell := Some(s.job.result))
    case WakeTask => s.(job := Ended, wake := true)
  }

  function InitState<T>(): State<T> {
    State(false, None, Resting, Unsubmitted, false, 0, [])
  }

  predicate Runs<T>(s: State<T>, steps: seq<Step<T>>)
    decreases |steps|
  {
    steps == [] || (Enabled(s, steps[0]) && Runs(Apply(s, steps[0]), steps[1..]))
  }

  function After<T>(s: State<T>, steps: seq<Step<T>>): State<T>
    requires Runs(s, steps)
    decreases |steps|
  {
    if steps == [] then s else After(Apply(s, steps[0]), steps[1..])
  }

  ghost predicate Inv<T>(s: State<T>) {
    && s.submissions == (if s.job.Unsubmitted? then 0 else 1)
    && (s.job.Unsubmitted? <==> !s.hasPolled || s.future.Submitting?)
    && (s.future.Submitting? ==> s.hasPolled)
    && (!s.hasPolled ==> s.future.Resting?)
    && (match s.job
        case Storing(r) => s.produced == [r]
        case Waking => |s.produced| == 1
        case Ended => |s.produced| == 1
        case _ => s.produced == [])
    && (s.cell.Some? ==> (s.job.Waking? || s.job.Ended?) && s.cell.value == s.produced[0] && !s.future.Resolved?)
    && ((s.job.Waking? || s.job.Ended?) && !s.future.Resolved? ==> s.cell.Some?)
    && (s.future.Taking? ==> s.cell.Some?)
    && (s.future.Resolved? ==> s.produced == [s.future.result] && (s.job.Waking? || s.job.Ended?))
    && (s.cell.Some? && (s.future.Resting? || s.future.Returning?) ==> s.wake || s.job.Waking?)
  }

  lemma {:induction false} RunKeepsInv<T>(s: State<T>, steps: seq<Step<T>>)
    requires Inv(s) && Runs(s, steps)
    ensures Inv(After(s, steps))
    decreases |steps|
  {
    if steps != [] {
      RunKeepsInv(Apply(s, steps[0]), steps[1..]);
    }
  }

  /**
   Over every interleaving: the job is handed over at most once, and exactly once from the
   return of the first poll on; a resolved future has the one result of the job; the step
   that takes the result always finds it; a resting future with a result stored has its
   wake outstanding or about to be raised.
   */
  lemma SubmittedOnceDeliveredOnce<T>(steps: seq<Step<T>>)
    requires Runs(InitState(), steps)
    ensures var s := After(InitState(), steps);
            && s.submissions <= 1
            && (s.hasPolled && !s.future.Submitting? ==> s.submissions == 1)
            && (s.future.Resolved? ==> s.produced == [s.future.result] && s.cell.None?)
            && (s.future.Taking? ==> Enabled(s, Take))
            && (s.future.Resting? && s.cell.Some? ==> s.wake || s.job.Waking?)
  {
    RunKeepsInv(InitState(), steps);
  }

  /** A poll that nothing interrupts, woken or spurious, up to its return. */
  function PollAtOnce<T>(s: State<T>, poll: Step<T>): State<T>
    requires (poll.PollWoken? || poll.PollSpurious?) && Enabled(s, poll)
  {
    var begun := Apply(s, poll);
    match begun.future
    case Submitting => Apply(Apply(begun, Submit), Return)
    case Returning => Apply(begun, Return)
    case Taking => if begun.cell.Some? then Apply(begun, Take) else begun
    case _ => begun
  }

  /** It does what `OffloadFuture.Poll` does: the first submits, a later one takes the result if there is one. */
  lemma PollIsFuturePoll<T>(s: State<T>, poll: Step<T>)
    requires (poll.PollWoken? || poll.PollSpurious?) && Enabled(s, poll)
    ensures var s' := PollAtOnce(s, poll);
            && s'.hasPolled
            && s'.submissions == (if s.hasPolled then s.submissions else s.submissions + 1)
            && s'.job == (if s.hasPolled then s.job else Queued)
            && s'.future == (if s.hasPolled && s.cell.Some? then Resolved(s.cell.value) else Resting)
            && s'.cell == (if s.hasPolled then None else s.cell)
            && s'.wake == (if poll.PollWoken? then false else s.wake)
  {
  }

  /** The steps that bring the result of a submitted job to a resting future. */
  function Finish<T>(s: State<T>): State<T>
    requires Inv(s) && s.future.Resting? && s.hasPolled && !s.job.Queued?
  {
    var s1 := if s.job.Storing? then Apply(s, StoreResult) else s;
    var s2 := if s1.job.Waking? then Apply(s1, WakeTask) else s1;
    if Enabled(s2, PollWoken) then
      var s3 := Apply(s2, PollWoken);
      if Enabled(s3, Take) then Apply(s3, Take) else s3
    else s2
  }

  /** Once the job has run, a resting future needs no poll but the woken one to resolve with its result. */
  lemma ResultArrives<T>(steps: seq<Step<T>>)
    requires Runs(InitState(), steps)
    ensures var s := After(InitState(), steps);
            s.future.Resting? && s.hasPolled && !s.job.Queued? ==>
              Inv(s) && Finish(s).future == Resolved(s.produced[0])
  {
    RunKeepsInv(InitState(), steps);
  }
}
