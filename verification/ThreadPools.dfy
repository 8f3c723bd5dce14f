/**
 The pool of worker threads for blocking work: jobs go round-robin to the workers.

 `PoolState` is the cursor and the jobs sent to each worker, in order.
 */
module ThreadPools {
  type Job = nat

  datatype PoolState = PoolState(cursor: nat, sent: seq<seq<Job>>)

  /** The cursor always names a worker. */
  predicate PoolValid(p: PoolState) {
    |p.sent| > 0 && p.cursor < |p.sent|
  }

  function ExecuteJob(p: PoolState, job: Job): PoolState
    requires PoolValid(p)
  {
    PoolState((p.cursor + 1) % |p.sent|, p.sent[p.cursor := p.sent[p.cursor] + [job]])
  }

  class HoochPool {
    const numThreads: nat
    var cursor: nat
    var senders: seq<seq<Job>>

    ghost predicate Valid()
      reads this
    {
      |senders| == numThreads && PoolValid(State())
    }

    ghost function State(): PoolState
      reads this
    {
      PoolState(cursor, senders)
    }

    /** A pool without workers can be made, but `GetAndUpdateIndex` would divide by zero. */
    constructor (numThreads: nat)
      ensures numThreads > 0 ==> Valid()
      ensures this.numThreads == numThreads && State() == NewPool(numThreads)
    {
      this.numThreads := numThreads;
      cursor := 0;
      senders := seq(numThreads, i => []);
    }

    method GetAndUpdateIndex() returns (idx: nat)
      requires Valid()
      modifies `cursor
      ensures Valid() && idx == old(cursor) && idx < numThreads && cursor == (idx + 1) % numThreads
    {
      var currentValue := cursor;
      var newIdx := (currentValue + 1) % numThreads;
      cursor := newIdx;
      return currentValue;
    }

    method Execute(job: Job)
      requires Valid()
      modifies this
      ensures Valid() && State() == ExecuteJob(old(State()), job)
      ensures senders == old(senders)[old(cursor) := old(senders)[old(cursor)] + [job]]
    {
      var idx := GetAndUpdateIndex();
      senders := senders[idx := senders[idx] + [job]];
    }
  }

  // ---------------------------------------------------------------------------
  // Balance

  function NewPool(n: nat): PoolState {
    PoolState(0, seq(n, i => []))
  }

  /** The pool after the first `m` jobs, one call after another. */
  function Submitted(n: nat, jobs: seq<Job>, m: nat): (p: PoolState)
    requires n > 0 && m <= |jobs|
    ensures PoolValid(p) && |p.sent| == n
  {
    if m == 0 then NewPool(n) else ExecuteJob(Submitted(n, jobs, m - 1), jobs[m - 1])
  }

  /** Of the first `m` jobs, those whose number has remainder `i` modulo `n`, in order. */
  function Share(n: nat, jobs: seq<Job>, m: nat, i: nat): seq<Job>
    requires n > 0 && m <= |jobs|
  {
    if m == 0 then [] else Share(n, jobs, m - 1, i) + (if (m - 1) % n == i then [jobs[m - 1]] else [])
  }

  lemma NextRemainder(n: nat, m: nat)
    requires n > 0
    ensures (m + 1) % n == (m % n + 1) % n
    ensures (m + 1) % n == if m % n + 1 < n then m % n + 1 else 0
    ensures (m + 1) / n == if m % n + 1 < n then m / n else m / n + 1
  {
    var q, r := m / n, m % n;
    assert m == q * n + r;
    if r + 1 < n {
      Quotient(n, m + 1, q, r + 1);
    } else {
      assert m + 1 == (q + 1) * n;
      Quotient(n, m + 1, q + 1, 0);
    }
  }

  lemma Quotient(n: nat, x: nat, q: nat, r: nat)
    requires n > 0 && x == q * n + r && r < n
    ensures x / n == q && x % n == r
  {
    var d := x / n - q;
    assert d * n == r - x % n;
    assert d * n + n > 0 && d * n < n;
  }

  /** Worker `i` of `n` receives in order exactly the jobs numbered `i` modulo `n`. */
  lemma {:induction false} WorkerGetsItsShare(n: nat, jobs: seq<Job>, m: nat)
    requires n > 0 && m <= |jobs|
    ensures var p := Submitted(n, jobs, m);
            p.cursor == m % n && forall i :: 0 <= i < n ==> p.sent[i] == Share(n, jobs, m, i)
  {
    if m > 0 {
      WorkerGetsItsShare(n, jobs, m - 1);
      NextRemainder(n, m - 1);
    }
  }

  /** Job `m`, with remainder `r`, goes to the share of worker `r`. */
  lemma ShareGrows(n: nat, jobs: seq<Job>, m: nat, i: nat, r: nat)
    requires n > 0 && m < |jobs| && m % n == r
    ensures |Share(n, jobs, m + 1, i)| == |Share(n, jobs, m, i)| + (if r == i then 1 else 0)
  {
  }

  lemma RoundBefore(n: nat, q: nat)
    requires n > 0 && q > 0
    ensures q * n == (q - 1) * n + (n - 1) + 1
  {
  }

  lemma {:induction false} ShareSizeAt(n: nat, jobs: seq<Job>, m: nat, q: nat, r: nat, i: nat)
    requires r < n && i < n && m == q * n + r && m <= |jobs|
    ensures |Share(n, jobs, m, i)| == q + (if i < r then 1 else 0)
    decreases m
  {
    if r > 0 {
      Quotient(n, m - 1, q, r - 1);
      ShareSizeAt(n, jobs, m - 1, q, r - 1, i);
      ShareGrows(n, jobs, m - 1, i, r - 1);
    } else if q > 0 {
      RoundBefore(n, q);
      Quotient(n, m - 1, q - 1, n - 1);
      ShareSizeAt(n, jobs, m - 1, q - 1, n - 1, i);
      ShareGrows(n, jobs, m - 1, i, n - 1);
    }
  }

  lemma Division(n: nat, m: nat)
    requires n > 0
    ensures m == m / n * n + m % n && m % n < n
  {
  }

  /** The exact number of jobs of each worker. */
  lemma ShareSize(n: nat, jobs: seq<Job>, m: nat, i: nat)
    requires n > 0 && i < n && m <= |jobs|
    ensures |Share(n, jobs, m, i)| == m / n + (if i < m % n then 1 else 0)
  {
    Division(n, m);
    var q, r := m / n, m % n;
    ShareSizeAt(n, jobs, m, q, r, i);
  }

  /** After any number of jobs the loads of two workers differ by at most one. */
  lemma LoadsAreBalanced(n: nat, jobs: seq<Job>, m: nat, i: nat, j: nat)
    requires n > 0 && i < n && j < n && m <= |jobs|
    ensures var p := Submitted(n, jobs, m); |p.sent[i]| <= |p.sent[j]| + 1
  {
    WorkerGetsItsShare(n, jobs, m);
    ShareSize(n, jobs, m, i);
    ShareSize(n, jobs, m, j);
  }

  // ---------------------------------------------------------------------------
  // Callers that interleave between the load and the store of the cursor

  datatype Caller = Loaded(idx: nat) | Chosen(idx: nat)

  datatype Race = Race(cursor: nat, callers: seq<Caller>)

  /** `Load` is a new caller's load; `Store` is the store of caller `k`. */
  datatype RaceStep = Load | Store(k: nat)

  predicate RaceEnabled(s: Race, step: RaceStep) {
    step.Store? ==> step.k < |s.callers| && s.callers[step.k].Loaded?
  }

  function RaceApply(n: nat, s: Race, step: RaceStep): Race
    requires n > 0 && RaceEnabled(s, step)
  {
    match step
    case Load => s.(callers := s.callers + [Loaded(s.cursor)])
    case Store(k) => Race((s.callers[k].idx + 1) % n, s.callers[k := Chosen(s.callers[k].idx)])
  }

  predicate RaceRuns(n: nat, s: Race, steps: seq<RaceStep>)
    requires n > 0
    decreases |steps|
  {
    steps == [] || (RaceEnabled(s, steps[0]) && RaceRuns(n, RaceApply(n, s, steps[0]), steps[1..]))
  }

  function RaceAfter(n: nat, s: Race, steps: seq<RaceStep>): Race
    requires n > 0 && RaceRuns(n, s, steps)
    decreases |steps|
  {
    if steps == [] then s else RaceAfter(n, RaceApply(n, s, steps[0]), steps[1..])
  }

  /** However loads and stores interleave, every index that is chosen names a worker. */
  lemma {:induction false} IndexStaysInRange(n: nat, s: Race, steps: seq<RaceStep>)
    requires n > 0 && RaceRuns(n, s, steps)
    requires s.cursor < n && forall k :: 0 <= k < |s.callers| ==> s.callers[k].idx < n
    ensures var s' := RaceAfter(n, s, steps);
            s'.cursor < n && forall k :: 0 <= k < |s'.callers| ==> s'.callers[k].idx < n
    decreases |steps|
  {
    if steps != [] {
      IndexStaysInRange(n, RaceApply(n, s, steps[0]), steps[1..]);
    }
  }

  /** No load falls between the load and the store of another caller. */
  predicate Serial(n: nat, s: Race, steps: seq<RaceStep>)
    requires n > 0 && RaceRuns(n, s, steps)
    decreases |steps|
  {
    steps == [] ||
    ((steps[0].Load? ==> !SomeLoaded(s)) && Serial(n, RaceApply(n, s, steps[0]), steps[1..]))
  }

  predicate SomeLoaded(s: Race) {
    exists k :: 0 <= k < |s.callers| && s.callers[k].Loaded?
  }

  /** Caller `k` chooses the worker `k` places after the first. */
  predicate RoundRobin(n: nat, first: nat, callers: seq<Caller>)
    requires n > 0
  {
    forall k :: 0 <= k < |callers| ==> callers[k].idx == (first + k) % n
  }

  /** At most the latest caller has not stored yet; the cursor is at the choice of the next one, or still at its own. */
  predicate OneAtATime(n: nat, first: nat, s: Race)
    requires n > 0
  {
    && RoundRobin(n, first, s.callers)
    && (forall k :: 0 <= k < |s.callers| - 1 ==> s.callers[k].Chosen?)
    && s.cursor == (if SomeLoaded(s) then first + |s.callers| - 1 else first + |s.callers|) % n
  }

  lemma StepStaysOneAtATime(n: nat, first: nat, s: Race, step: RaceStep)
    requires n > 0 && OneAtATime(n, first, s) && RaceEnabled(s, step) && (step.Load? ==> !SomeLoaded(s))
    ensures OneAtATime(n, first, RaceApply(n, s, step))
  {
    var s' := RaceApply(n, s, step);
    match step
    case Load => assert s'.callers[|s.callers|].Loaded?;
    case Store(k) =>
      assert k == |s.callers| - 1;
      assert !SomeLoaded(s');
      NextRemainder(n, first + k);
  }

  /** Callers keep the index they have loaded. */
  lemma {:induction false} LoadsLast(n: nat, s: Race, steps: seq<RaceStep>, k: nat)
    requires n > 0 && RaceRuns(n, s, steps) && k < |s.callers|
    ensures k < |RaceAfter(n, s, steps).callers| && RaceAfter(n, s, steps).callers[k].idx == s.callers[k].idx
    decreases |steps|
  {
    if steps != [] {
      LoadsLast(n, RaceApply(n, s, steps[0]), steps[1..], k);
    }
  }

  /** An overlapping load repeats the choice of the caller before, which is another than its own turn's. */
  lemma OverlappingLoadCollides(n: nat, first: nat, s: Race)
    requires n > 1 && OneAtATime(n, first, s) && SomeLoaded(s)
    ensures var s' := RaceApply(n, s, Load);
            var k := |s.callers|;
            k > 0 && s'.callers[k].idx == s.callers[k - 1].idx && s'.callers[k].idx != (first + k) % n
  {
    NextRemainder(n, first + |s.callers| - 1);
  }

  lemma {:induction false} SerialIff(n: nat, first: nat, s: Race, steps: seq<RaceStep>)
    requires n > 1 && OneAtATime(n, first, s) && RaceRuns(n, s, steps)
    ensures RoundRobin(n, first, RaceAfter(n, s, steps).callers) <==> Serial(n, s, steps)
    decreases |steps|
  {
    if steps != [] {
      var s' := RaceApply(n, s, steps[0]);
      if steps[0].Load? && SomeLoaded(s) {
        OverlappingLoadCollides(n, first, s);
        LoadsLast(n, s', steps[1..], |s.callers|);
      } else {
        StepStaysOneAtATime(n, first, s, steps[0]);
        SerialIff(n, first, s', steps[1..]);
      }
    }
  }

  /**
   Whatever the interleaving, the choices are round-robin exactly if no caller loads the cursor
   between the load and the store of another. With a single worker they always are.
   */
  lemma RoundRobinIff(n: nat, first: nat, steps: seq<RaceStep>)
    requires first < n && RaceRuns(n, Race(first, []), steps)
    ensures RoundRobin(n, first, RaceAfter(n, Race(first, []), steps).callers)
            <==> n == 1 || Serial(n, Race(first, []), steps)
  {
    if n == 1 {
      IndexStaysInRange(n, Race(first, []), steps);
    } else {
      SerialIff(n, first, Race(first, []), steps);
    }
  }

  /** Two callers that both load before either stores choose the same worker; of a single worker that is no harm. */
  lemma OverlappingCallersCollide(n: nat, cursor: nat)
    requires n > 0 && cursor < n
    ensures var steps := [Load, Load, Store(0), Store(1)];
            RaceRuns(n, Race(cursor, []), steps)
            && RaceAfter(n, Race(cursor, []), steps).callers == [Chosen(cursor), Chosen(cursor)]
  {
    var steps := [Load, Load, Store(0), Store(1)];
    assert steps[1..] == [Load, Store(0), Store(1)];
    assert [Load, Store(0), Store(1)][1..] == [Store(0), Store(1)];
    assert [Store(0), Store(1)][1..] == [Store(1)];
    var s2 := Race(cursor, [Loaded(cursor), Loaded(cursor)]);
    assert RaceApply(n, RaceApply(n, Race(cursor, []), Load), Load) == s2;
    var s3 := RaceApply(n, s2, Store(0));
    assert RaceRuns(n, s3, [Store(1)]) && RaceAfter(n, s3, [Store(1)]) == RaceApply(n, s3, Store(1));
    assert RaceRuns(n, s2, [Store(0), Store(1)]);
  }
}
