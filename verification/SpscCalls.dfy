/**
 The calls of the pushing and the popping thread: each takes effect exactly once, and returns
 the answer of its effect. With `SpscRuns` this makes the ring linearizable: what the callers
 see is a history of a bounded FIFO queue.
 */
module SpscCalls {
  import opened RingBuffers
  import opened SpscRing
  import opened SpscRuns

  // ---------------------------------------------------------------------------
  // What the threads do and see

  /** The values of the pushes begun, in order. */
  function Begun<T>(steps: seq<Step<T>>): seq<T> {
    if steps == [] then [] else (if steps[0].BeginPush? then [steps[0].value] else []) + Begun(steps[1..])
  }

  function PopsBegun<T>(steps: seq<Step<T>>): nat {
    if steps == [] then 0 else (if steps[0].BeginPop? then 1 else 0) + PopsBegun(steps[1..])
  }

  /** The answer with which the step ends a push: accepted if it was counted. */
  function PushReturn<T>(s: State<T>, step: Step<T>): seq<Out<T>>
    requires Enabled(s, step)
  {
    if s.pusher.PushIdle? || !Apply(s, step).pusher.PushIdle? then []
    else if s.pusher.PushStore? then [Accepted]
    else [Full]
  }

  /** The answer with which the step ends a pop: the value taken if it was counted off. */
  function PopReturn<T>(s: State<T>, step: Step<T>): seq<Out<T>>
    requires Enabled(s, step)
  {
    if s.popper.PopIdle? || !Apply(s, step).popper.PopIdle? then []
    else if s.popper.PopStore? && s.popper.taken.Init? then [Popped(s.popper.taken.value)]
    else [Empty]
  }

  function PushReturns<T>(s: State<T>, steps: seq<Step<T>>): seq<Out<T>>
    requires Runs(s, steps)
    decreases |steps|
  {
    if steps == [] then [] else PushReturn(s, steps[0]) + PushReturns(Apply(s, steps[0]), steps[1..])
  }

  function PopReturns<T>(s: State<T>, steps: seq<Step<T>>): seq<Out<T>>
    requires Runs(s, steps)
    decreases |steps|
  {
    if steps == [] then [] else PopReturn(s, steps[0]) + PopReturns(Apply(s, steps[0]), steps[1..])
  }

  // ---------------------------------------------------------------------------
  // What takes effect

  function PushedValues<T>(effects: seq<(Op<T>, Out<T>)>): seq<T> {
    if effects == [] then []
    else (if effects[0].0.Push? then [effects[0].0.value] else []) + PushedValues(effects[1..])
  }

  function PushAnswers<T>(effects: seq<(Op<T>, Out<T>)>): seq<Out<T>> {
    if effects == [] then [] else (if effects[0].0.Push? then [effects[0].1] else []) + PushAnswers(effects[1..])
  }

  function PopAnswers<T>(effects: seq<(Op<T>, Out<T>)>): seq<Out<T>> {
    if effects == [] then [] else (if effects[0].0.Pop? then [effects[0].1] else []) + PopAnswers(effects[1..])
  }

  /** The push under way that has not taken effect. */
  function Undecided<T>(pusher: Pusher<T>): seq<T> {
    if pusher.PushIdle? || pusher.PushStore? then [] else [pusher.value]
  }

  function PopUndecided<T>(popper: Popper<T>): nat {
    if popper.PopIdle? || popper.PopStore? then 0 else 1
  }

  /** The answer of the call under way that has taken effect. */
  function Unreturned<T>(pusher: Pusher<T>): seq<Out<T>> {
    if pusher.PushStore? then [Accepted] else []
  }

  function PopUnreturned<T>(popper: Popper<T>): seq<Out<T>> {
    if popper.PopStore? && popper.taken.Init? then [Popped(popper.taken.value)] else []
  }

  // ---------------------------------------------------------------------------
  // Each call once

  /** The effect of a step, as a sequence. */
  function EffectOf<T>(s: State<T>, step: Step<T>): seq<(Op<T>, Out<T>)>
    requires Enabled(s, step)
  {
    match Effect(s, step)
    case None => []
    case Some(x) => [x]
  }

  lemma PusherAccounts<T>(s: State<T>, step: Step<T>)
    requires Enabled(s, step)
    ensures var s' := Apply(s, step);
            && PushedValues(EffectOf(s, step)) + Undecided(s'.pusher) == Undecided(s.pusher) + Begun([step])
            && Unreturned(s.pusher) + PushAnswers(EffectOf(s, step)) == PushReturn(s, step) + Unreturned(s'.pusher)
  {
    assert [step][1..] == [] && EffectOf(s, step)[..] == EffectOf(s, step);
  }

  lemma PopperAccounts<T>(s: State<T>, step: Step<T>)
    requires Inv(s) && Enabled(s, step)
    ensures var s' := Apply(s, step);
            && |PopAnswers(EffectOf(s, step))| + PopUndecided(s'.popper) == PopUndecided(s.popper) + PopsBegun([step])
            && PopUnreturned(s.popper) + PopAnswers(EffectOf(s, step)) == PopReturn(s, step) + PopUnreturned(s'.popper)
  {
    assert [step][1..] == [] && EffectOf(s, step)[..] == EffectOf(s, step);
  }

  lemma {:induction false} EffectsSplit<T>(s: State<T>, steps: seq<Step<T>>)
    requires Runs(s, steps) && steps != []
    ensures var (now, rest) := (EffectOf(s, steps[0]), Effects(Apply(s, steps[0]), steps[1..]));
            && PushedValues(Effects(s, steps)) == PushedValues(now) + PushedValues(rest)
            && PushAnswers(Effects(s, steps)) == PushAnswers(now) + PushAnswers(rest)
            && PopAnswers(Effects(s, steps)) == PopAnswers(now) + PopAnswers(rest)
  {
    var rest := Effects(Apply(s, steps[0]), steps[1..]);
    match Effect(s, steps[0])
    case None =>
      assert EffectOf(s, steps[0]) == [];
    case Some(x) =>
      assert EffectOf(s, steps[0]) == [x] && Effects(s, steps) == [x] + rest;
      FirstEffect(x, rest);
  }

  lemma {:induction false} FirstEffect<T>(x: (Op<T>, Out<T>), rest: seq<(Op<T>, Out<T>)>)
    ensures PushedValues([x] + rest) == PushedValues([x]) + PushedValues(rest)
    ensures PushAnswers([x] + rest) == PushAnswers([x]) + PushAnswers(rest)
    ensures PopAnswers([x] + rest) == PopAnswers([x]) + PopAnswers(rest)
  {
    OneEffect(x);
    var all := [x] + rest;
    assert all[0] == x && all[1..] == rest;
  }

  lemma {:induction false} OneEffect<T>(x: (Op<T>, Out<T>))
    ensures PushedValues([x]) == if x.0.Push? then [x.0.value] else []
    ensures PushAnswers([x]) == if x.0.Push? then [x.1] else []
    ensures PopAnswers([x]) == if x.0.Pop? then [x.1] else []
  {
    var none: seq<(Op<T>, Out<T>)> := [];
    assert [x][1..] == none;
    assert PushedValues(none) == [] && PushAnswers(none) == [] && PopAnswers(none) == [];
  }

  lemma {:induction false} StepsSplit<T>(steps: seq<Step<T>>)
    requires steps != []
    ensures Begun(steps) == Begun([steps[0]]) + Begun(steps[1..])
    ensures PopsBegun(steps) == PopsBegun([steps[0]]) + PopsBegun(steps[1..])
  {
    assert [steps[0]][1..] == [];
  }

  lemma {:induction false} PushesTakeEffect<T>(s: State<T>, steps: seq<Step<T>>)
    requires Runs(s, steps)
    ensures PushedValues(Effects(s, steps)) + Undecided(After(s, steps).pusher) == Undecided(s.pusher) + Begun(steps)
    ensures Unreturned(s.pusher) + PushAnswers(Effects(s, steps)) == PushReturns(s, steps) + Unreturned(After(s, steps).pusher)
    decreases |steps|
  {
    if steps != [] {
      var s' := Apply(s, steps[0]);
      PusherAccounts(s, steps[0]);
      PushesTakeEffect(s', steps[1..]);
      EffectsSplit(s, steps);
      StepsSplit(steps);
      var (now, rest) := (EffectOf(s, steps[0]), Effects(s', steps[1..]));
      Chain(PushedValues(now), PushedValues(rest), Undecided(After(s, steps).pusher), Undecided(s'.pusher),
            Begun(steps[1..]), Undecided(s.pusher), Begun([steps[0]]));
      Chain(PushReturn(s, steps[0]), PushReturns(s', steps[1..]), Unreturned(After(s, steps).pusher), Unreturned(s'.pusher),
            PushAnswers(rest), Unreturned(s.pusher), PushAnswers(now));
    }
  }

  lemma {:induction false} PopsTakeEffect<T>(s: State<T>, steps: seq<Step<T>>)
    requires Inv(s) && Runs(s, steps) && CleanRun(s, steps)
    ensures |PopAnswers(Effects(s, steps))| + PopUndecided(After(s, steps).popper) == PopUndecided(s.popper) + PopsBegun(steps)
    ensures PopUnreturned(s.popper) + PopAnswers(Effects(s, steps))
         == PopReturns(s, steps) + PopUnreturned(After(s, steps).popper)
    decreases |steps|
  {
    if steps != [] {
      var s' := Apply(s, steps[0]);
      StepKeepsInv(s, steps[0]);
      PopperAccounts(s, steps[0]);
      PopsTakeEffect(s', steps[1..]);
      EffectsSplit(s, steps);
      StepsSplit(steps);
      var (now, rest) := (EffectOf(s, steps[0]), Effects(s', steps[1..]));
      Chain(PopReturn(s, steps[0]), PopReturns(s', steps[1..]), PopUnreturned(After(s, steps).popper), PopUnreturned(s'.popper),
            PopAnswers(rest), PopUnreturned(s.popper), PopAnswers(now));
    }
  }

  /** Two accounts, one after the other. */
  lemma Chain<X>(a: seq<X>, as': seq<X>, left: seq<X>, middle: seq<X>, bs: seq<X>, from: seq<X>, b: seq<X>)
    requires a + middle == from + b && as' + left == middle + bs
    ensures (a + as') + left == from + (b + bs)
  {
    assert (a + as') + left == a + (as' + left);
    assert a + (middle + bs) == (a + middle) + bs;
    assert (from + b) + bs == from + (b + bs);
  }

  /**
   Over every clean run from a new ring: the pushes begun take effect in order and once, all but
   the one under way, and so do the pops; the answers returned are those of the effects, in
   order, all but the one not yet returned; and the effects are a history of a bounded FIFO queue.
   */
  lemma EveryCallTakesEffectOnce<T>(bound: nat, steps: seq<Step<T>>)
    requires Runs(InitState(bound), steps) && CleanRun(InitState(bound), steps)
    ensures var s := After(InitState(bound), steps);
            var effects := Effects(InitState(bound), steps);
            && PushedValues(effects) + Undecided(s.pusher) == Begun(steps)
            && PushAnswers(effects) == PushReturns(InitState(bound), steps) + Unreturned(s.pusher)
            && |PopAnswers(effects)| + PopUndecided(s.popper) == PopsBegun(steps)
            && PopAnswers(effects) == PopReturns(InitState(bound), steps) + PopUnreturned(s.popper)
            && Inv(s) && FifoHistory([], bound, effects, Queue(s))
  {
    var s0: State<T> := InitState(bound);
    InitIsEmpty<T>(bound);
    CleanRunsAreFifo(s0, steps);
    PushesTakeEffect(s0, steps);
    PopsTakeEffect(s0, steps);
    var effects := Effects(s0, steps);
    assert [] + Begun(steps) == Begun(steps);
    assert [] + PushAnswers(effects) == PushAnswers(effects);
    assert [] + PopAnswers(effects) == PopAnswers(effects);
  }

  /** Neither thread ever waits for the other: each has a step to take. */
  lemma NoThreadWaits<T>(s: State<T>, value: T)
    requires Inv(s)
    ensures exists step: Step<T> :: !ByPopper(step) && Enabled(s, step) && Apply(s, step).popper == s.popper
    ensures exists step: Step<T> :: ByPopper(step) && Enabled(s, step) && Apply(s, step).pusher == s.pusher
  {
    InvIsSafe(s);
    var push: Step<T> := match s.pusher
      case PushIdle => BeginPush(value)
      case PushCheck(_) => CheckFull
      case PushLoadEnd(_) => LoadEnd
      case PushWrite(_, _) => BeginWrite
      case PushWriting(_, _) => EndWrite
      case PushCount(_, _) => AddCount
      case PushStore(_) => StoreEnd;
    assert !ByPopper(push) && Enabled(s, push);
    var pop: Step<T> := match s.popper
      case PopIdle => BeginPop
      case PopLoadEnd(_) => LoadEndToPop
      case PopCheck(_, _) => CheckEmpty
      case PopRead(_) => BeginRead
      case PopReading(_) => EndRead
      case PopCount(_, _) => SubCount
      case PopStore(_, _) => StoreStart;
    assert ByPopper(pop) && Enabled(s, pop);
  }
}
