/**
 Runs of the single accesses: those without a stale load are histories of a bounded FIFO
 queue, among them all that publish the count and the end at once. A stale load is what goes
 wrong otherwise, and a run reaches one.
 */
module SpscRuns {
  import opened Wrappers
  import opened RingBuffers
  import opened SpscRing

  // ---------------------------------------------------------------------------
  // Runs

  predicate Runs<T>(s: State<T>, steps: seq<Step<T>>)
    decreases |steps|
  {
    steps == [] || (Enabled(s, steps[0]) && Runs(Apply(s, steps[0]), steps[1..]))
  }

  function After<T>(s: State<T>, steps: seq<Step<T>>): State<T>
    requires Runs(s, steps)
    decreases |steps|
  {
    if steps == [] then s else After(Apply(s, steps[0]), steps[1..])
  }

  predicate CleanRun<T>(s: State<T>, steps: seq<Step<T>>)
    requires Runs(s, steps)
    decreases |steps|
  {
    steps == [] || (CleanStep(s, steps[0]) && CleanRun(Apply(s, steps[0]), steps[1..]))
  }

  /** The operations of a run in the order in which they take effect. */
  function Effects<T>(s: State<T>, steps: seq<Step<T>>): seq<(Op<T>, Out<T>)>
    requires Runs(s, steps)
    decreases |steps|
  {
    if steps == [] then []
    else
      var rest := Effects(Apply(s, steps[0]), steps[1..]);
      match Effect(s, steps[0])
      case None => rest
      case Some(e) => [e] + rest
  }

  /** A sequence of operations and answers that a bounded FIFO queue gives, from `q` to `q'`. */
  ghost predicate FifoHistory<T>(q: seq<T>, bound: nat, effects: seq<(Op<T>, Out<T>)>, q': seq<T>)
    decreases |effects|
  {
    if effects == [] then q == q'
    else
      var (q1, out) := FifoStep(q, bound, effects[0].0);
      out == effects[0].1 && FifoHistory(q1, bound, effects[1..], q')
  }

  /** Every clean interleaving is linearizable to the bounded FIFO queue, and memory safe. */
  lemma {:induction false} CleanRunsAreFifo<T>(s: State<T>, steps: seq<Step<T>>)
    requires Inv(s) && Runs(s, steps) && CleanRun(s, steps)
    ensures Inv(After(s, steps)) && MemorySafe(After(s, steps))
    ensures FifoHistory(Queue(s), |s.slots|, Effects(s, steps), Queue(After(s, steps)))
    decreases |steps|
  {
    if steps == [] {
      InvIsSafe(s);
    } else {
      StepRefinesFifo(s, steps[0]);
      CleanRunsAreFifo(Apply(s, steps[0]), steps[1..]);
      match Effect(s, steps[0])
      case None =>
      case Some(e) =>
        assert Effects(s, steps)[1..] == Effects(Apply(s, steps[0]), steps[1..]);
    }
  }

  lemma InitIsEmpty<T>(bound: nat)
    ensures var s: State<T> := InitState(bound); Inv(s) && Queue(s) == []
  {
  }

  // ---------------------------------------------------------------------------
  // The count and the end

  /** In this run nothing happens between the increment of `count` and the store of `end`. */
  predicate PublishesAtOnce<T>(s: State<T>, steps: seq<Step<T>>)
    requires Runs(s, steps)
    decreases |steps|
  {
    steps == [] || ((s.pusher.PushStore? ==> steps[0].StoreEnd?) && PublishesAtOnce(Apply(s, steps[0]), steps[1..]))
  }

  lemma {:induction false} PublishingAtOnceIsClean<T>(s: State<T>, steps: seq<Step<T>>)
    requires Runs(s, steps) && PublishesAtOnce(s, steps)
    ensures CleanRun(s, steps)
    decreases |steps|
  {
    if steps != [] {
      PublishingAtOnceIsClean(Apply(s, steps[0]), steps[1..]);
    }
  }

  /** From a new ring on, with count and end published at once, every interleaving is a bounded FIFO queue. */
  lemma SpscIsLinearizable<T>(bound: nat, steps: seq<Step<T>>)
    requires Runs(InitState(bound), steps) && PublishesAtOnce(InitState(bound), steps)
    ensures var s := After(InitState(bound), steps);
            && MemorySafe(s)
            && Inv(s)
            && FifoHistory([], bound, Effects(InitState(bound), steps), Queue(s))
  {
    var s0: State<T> := InitState(bound);
    InitIsEmpty<T>(bound);
    PublishingAtOnceIsClean(s0, steps);
    CleanRunsAreFifo(s0, steps);
  }

  /** The popping thread alone, from its load of `end` up to its slot read. */
  function PopperAlone<T>(s: State<T>): State<T>
    requires s.popper.PopLoadEnd?
  {
    var checked := Apply(Apply(s, LoadEndToPop), CheckEmpty);
    if checked.popper.PopRead? then Apply(checked, BeginRead) else checked
  }

  /** A load of `end` is safe, left to itself, exactly when the situation is not stale. */
  lemma LoadIsSafeIff<T>(s: State<T>)
    requires Inv(s) && s.popper.PopLoadEnd?
    ensures MemorySafe(PopperAlone(s)) <==> !Stale(s)
  {
    var s' := PopperAlone(s);
    if Stale(s) {
      assert s.end != s.start;
      assert s'.popper == PopReading(s.start);
      assert !Live(s, s.start);
    } else {
      StepKeepsInv(s, LoadEndToPop);
      var loaded := Apply(s, LoadEndToPop);
      StepKeepsInv(loaded, CheckEmpty);
      var checked := Apply(loaded, CheckEmpty);
      if checked.popper.PopRead? {
        StepKeepsInv(checked, BeginRead);
      }
      InvIsSafe(s');
    }
  }

  lemma Cons<T>(s: State<T>, step: Step<T>, rest: seq<Step<T>>)
    requires Enabled(s, step) && Runs(Apply(s, step), rest)
    ensures Runs(s, [step] + rest) && After(s, [step] + rest) == After(Apply(s, step), rest)
  {
    assert ([step] + rest)[1..] == rest;
  }

  ghost predicate Reaches<T(!new)>(s: State<T>, s': State<T>) {
    exists steps :: Runs(s, steps) && After(s, steps) == s'
  }

  lemma ReachesByStep<T(!new)>(s: State<T>, step: Step<T>, s': State<T>)
    requires Enabled(s, step) && Reaches(Apply(s, step), s')
    ensures Reaches(s, s')
  {
    var rest :| Runs(Apply(s, step), rest) && After(Apply(s, step), rest) == s';
    Cons(s, step, rest);
  }

  lemma ReachesItself<T(!new)>(s: State<T>)
    ensures Reaches(s, s)
  {
    assert Runs(s, []) && After(s, []) == s;
  }

  /** Two slots, one value counted whose push still has to store `end`. */
  const COUNTED: State<int> := State([Init(7), Uninit], 0, 0, 1, PushStore(1), PopIdle)
  /** The same after one pop, with a second pop about to load `end`. */
  const EMPTIED: State<int> := State([Uninit, Uninit], 1, 0, 0, PushStore(1), PopLoadEnd(1))

  lemma PopEmpties()
    ensures Reaches(COUNTED, EMPTIED)
  {
    var s1 := Apply(COUNTED, BeginPop);
    var s2 := Apply(s1, LoadEndToPop);
    var s3 := Apply(s2, CheckEmpty);
    var s4 := Apply(s3, BeginRead);
    var s5 := Apply(s4, EndRead);
    var s6 := Apply(s5, SubCount);
    var s7 := Apply(s6, StoreStart);
    assert Apply(s7, BeginPop) == EMPTIED;
    ReachesItself(EMPTIED);
    ReachesByStep(s7, BeginPop, EMPTIED);
    ReachesByStep(s6, StoreStart, EMPTIED);
    ReachesByStep(s5, SubCount, EMPTIED);
    ReachesByStep(s4, EndRead, EMPTIED);
    ReachesByStep(s3, BeginRead, EMPTIED);
    ReachesByStep(s2, CheckEmpty, EMPTIED);
    ReachesByStep(s1, LoadEndToPop, EMPTIED);
    ReachesByStep(COUNTED, BeginPop, EMPTIED);
  }

  lemma PushCounts()
    ensures Reaches(InitState(2), EMPTIED)
  {
    var s0: State<int> := State([Uninit, Uninit], 0, 0, 0, PushIdle, PopIdle);
    assert InitState(2) == s0;
    var s4 := State([Uninit, Uninit], 0, 0, 0, PushWriting(7, 0), PopIdle);
    var s5 := State([Init(7), Uninit], 0, 0, 0, PushCount(7, 0), PopIdle);
    assert Apply(s4, EndWrite) == s5;
    PopEmpties();
    ReachesByStep(s5, AddCount, EMPTIED);
    ReachesByStep(s4, EndWrite, EMPTIED);
    ReachesByStep(s4.(pusher := PushWrite(7, 0)), BeginWrite, EMPTIED);
    ReachesByStep(s4.(pusher := PushLoadEnd(7)), LoadEnd, EMPTIED);
    ReachesByStep(s4.(pusher := PushCheck(7)), CheckFull, EMPTIED);
    ReachesByStep(s0, BeginPush(7), EMPTIED);
  }

  /** A new ring of two slots reaches a stale situation, from which the popping thread reads an empty slot. */
  lemma StaleRunExists()
    ensures Reaches(InitState(2), EMPTIED) && Stale(EMPTIED) && !MemorySafe(PopperAlone(EMPTIED))
  {
    PushCounts();
  }
}
