/**
 The circular buffer behind every queue of the runtime.

 `Ring` is the value of the four fields between two calls; `PushRing` and `PopRing`
 take the branches that the code takes. `LockFreeBoundedRingBuffer` is the buffer
 itself, updated in place. The lemmas say that both are a bounded FIFO queue.
 */
module RingBuffers {
  import opened Wrappers

  /** A buffer slot: memory that holds no value, or a value. */
  datatype Slot<+T> = Uninit | Init(value: T)

  datatype Ring<+T> = Ring(buffer: seq<Slot<T>>, start: nat, end: nat, count: nat)

  /** The slot `k` places after `i`, around the end of the buffer. */
  function Around(i: nat, k: nat, capacity: nat): nat {
    if i + k < capacity then i + k else i + k - capacity
  }

  /** How far `j` lies after `start`, around the end of the buffer. */
  function Offset(start: nat, j: nat, capacity: nat): int {
    if j >= start then j - start else j - start + capacity
  }

  /** Exactly the `count` slots from `start` on hold values, and `end` is the slot after them. */
  predicate RingValid<T>(r: Ring<T>) {
    var capacity := |r.buffer|;
    && r.count <= capacity
    && (capacity == 0 ==> r.start == r.end == 0)
    && (capacity > 0 ==> r.start < capacity && r.end == Around(r.start, r.count, capacity))
    && forall j {:trigger r.buffer[j]} :: 0 <= j < capacity ==>
         (r.buffer[j].Init? <==> Offset(r.start, j, capacity) < r.count)
  }

  /** The queue a ring stands for, oldest value first. */
  function RingContents<T>(r: Ring<T>): (q: seq<T>)
    requires RingValid(r)
    ensures |q| == r.count
  {
    seq(r.count, k requires 0 <= k < r.count =>
      assert Offset(r.start, Around(r.start, k, |r.buffer|), |r.buffer|) == k;
      r.buffer[Around(r.start, k, |r.buffer|)].value)
  }

  function NewRing<T>(bound: nat): (r: Ring<T>)
    ensures RingValid(r) && RingContents(r) == [] && |r.buffer| == bound
  {
    Ring(seq(bound, i => Uninit), 0, 0, 0)
  }

  function PushRing<T>(r: Ring<T>, value: T): (res: (Ring<T>, bool))
    requires RingValid(r)
  {
    if r.count == |r.buffer| then
      (r, false)
    else
      var newEnd := if r.end + 1 < |r.buffer| then r.end + 1 else 0;
      (Ring(r.buffer[r.end := Init(value)], r.start, newEnd, r.count + 1), true)
  }

  function PopRing<T>(r: Ring<T>): (res: (Ring<T>, Option<T>))
    requires RingValid(r)
  {
    if r.start == r.end && r.count == 0 then
      (r, None)
    else
      assert r.count > 0;
      var value := r.buffer[r.start].value;
      var newStart := if r.start + 1 >= |r.buffer| then 0 else r.start + 1;
      (Ring(r.buffer[r.start := Uninit], newStart, r.end, r.count - 1), Some(value))
  }

  /** A push appends to the queue, or finds it full and changes nothing. */
  lemma PushAppends<T>(r: Ring<T>, value: T)
    requires RingValid(r)
    ensures var (r', ok) := PushRing(r, value);
            && RingValid(r') && |r'.buffer| == |r.buffer|
            && (ok <==> |RingContents(r)| < |r.buffer|)
            && RingContents(r') == (if ok then RingContents(r) + [value] else RingContents(r))
            && (!ok ==> r' == r)
  {
    var (r', ok) := PushRing(r, value);
    if ok {
      var capacity := |r.buffer|;
      assert r'.end == Around(r'.start, r'.count, capacity);
      forall k | 0 <= k < r'.count
        ensures RingContents(r')[k] == (RingContents(r) + [value])[k]
      {
        assert Offset(r.start, Around(r.start, k, capacity), capacity) == k;
      }
    }
  }

  /** A pop takes the oldest value, and finds none exactly when the queue is empty. */
  lemma PopTakesOldest<T>(r: Ring<T>)
    requires RingValid(r)
    ensures var (r', out) := PopRing(r);
            && RingValid(r') && |r'.buffer| == |r.buffer|
            && (out.None? <==> RingContents(r) == [])
            && (out.None? ==> r' == r)
            && (out.Some? ==> out.value == RingContents(r)[0] && RingContents(r') == RingContents(r)[1..])
  {
    var (r', out) := PopRing(r);
    if out.Some? {
      var capacity := |r.buffer|;
      assert r'.end == Around(r'.start, r'.count, capacity);
      forall k | 0 <= k < r'.count
        ensures RingContents(r')[k] == RingContents(r)[1..][k]
      {
        assert Around(r'.start, k, capacity) == Around(r.start, k + 1, capacity);
      }
    }
  }

  /** The end index is the start index plus the count, modulo the capacity. */
  lemma EndIsStartPlusCount<T>(r: Ring<T>)
    requires RingValid(r) && |r.buffer| > 0
    ensures r.end == (r.start + r.count) % |r.buffer|
  {
    if r.start + r.count >= |r.buffer| {
      assert r.start + r.count == |r.buffer| + r.end;
    }
  }

  // ---------------------------------------------------------------------------
  // Histories

  datatype Op<+T> = Push(value: T) | Pop

  /** What a caller sees of one operation. */
  datatype Out<+T> = Accepted | Full | Popped(value: T) | Empty

  /** One operation on a ring. */
  function RingStep<T>(r: Ring<T>, op: Op<T>): (res: (Ring<T>, Out<T>))
    requires RingValid(r)
  {
    match op
    case Push(v) => var (r', ok) := PushRing(r, v); (r', if ok then Accepted else Full)
    case Pop => var (r', out) := PopRing(r); (r', if out.Some? then Popped(out.value) else Empty)
  }

  /** The same operation on a queue that holds at most `bound` values. */
  function FifoStep<T>(q: seq<T>, bound: nat, op: Op<T>): (res: (seq<T>, Out<T>)) {
    match op
    case Push(v) => if |q| < bound then (q + [v], Accepted) else (q, Full)
    case Pop => if q != [] then (q[1..], Popped(q[0])) else (q, Empty)
  }

  lemma StepRefines<T>(r: Ring<T>, op: Op<T>)
    requires RingValid(r)
    ensures var (r', out) := RingStep(r, op);
            && RingValid(r') && |r'.buffer| == |r.buffer|
            && FifoStep(RingContents(r), |r.buffer|, op) == (RingContents(r'), out)
  {
    match op
    case Push(v) => PushAppends(r, v);
    case Pop => PopTakesOldest(r);
  }

  /** The ring after a history of operations. */
  function RingAfter<T>(r: Ring<T>, ops: seq<Op<T>>): (r': Ring<T>)
    requires RingValid(r)
    ensures RingValid(r')
    decreases |ops|
  {
    if ops == [] then r else StepRefines(r, ops[0]); RingAfter(RingStep(r, ops[0]).0, ops[1..])
  }

  /** What the caller saw of a history of operations. */
  function RingOuts<T>(r: Ring<T>, ops: seq<Op<T>>): (outs: seq<Out<T>>)
    requires RingValid(r)
    ensures |outs| == |ops|
    decreases |ops|
  {
    if ops == [] then []
    else
      StepRefines(r, ops[0]);
      var (r', out) := RingStep(r, ops[0]);
      [out] + RingOuts(r', ops[1..])
  }

  function FifoAfter<T>(q: seq<T>, bound: nat, ops: seq<Op<T>>): seq<T>
    decreases |ops|
  {
    if ops == [] then q else FifoAfter(FifoStep(q, bound, ops[0]).0, bound, ops[1..])
  }

  function FifoOuts<T>(q: seq<T>, bound: nat, ops: seq<Op<T>>): (outs: seq<Out<T>>)
    ensures |outs| == |ops|
    decreases |ops|
  {
    if ops == [] then []
    else
      var (q', out) := FifoStep(q, bound, ops[0]);
      [out] + FifoOuts(q', bound, ops[1..])
  }

  /** No caller can tell the ring from a bounded FIFO queue, whatever the history. */
  lemma {:induction false} RingRefinesFifo<T>(r: Ring<T>, ops: seq<Op<T>>)
    requires RingValid(r)
    ensures RingOuts(r, ops) == FifoOuts(RingContents(r), |r.buffer|, ops)
    ensures RingContents(RingAfter(r, ops)) == FifoAfter(RingContents(r), |r.buffer|, ops)
    decreases |ops|
  {
    if ops != [] {
      StepRefines(r, ops[0]);
      RingRefinesFifo(RingStep(r, ops[0]).0, ops[1..]);
    }
  }

  /** The values of the pushes that a history accepted, in order. */
  function AcceptedValues<T>(ops: seq<Op<T>>, outs: seq<Out<T>>): seq<T>
    requires |ops| == |outs|
  {
    if ops == [] then []
    else (if ops[0].Push? && outs[0].Accepted? then [ops[0].value] else []) + AcceptedValues(ops[1..], outs[1..])
  }

  /** The values that the pops of a history returned, in order. */
  function PoppedValues<T>(outs: seq<Out<T>>): seq<T> {
    if outs == [] then []
    else (if outs[0].Popped? then [outs[0].value] else []) + PoppedValues(outs[1..])
  }

  lemma Regroup<T>(q: seq<T>, a: seq<T>, as': seq<T>, p: seq<T>, q1: seq<T>, ps: seq<T>, rest: seq<T>)
    requires q + a == p + q1 && q1 + as' == ps + rest
    ensures q + (a + as') == (p + ps) + rest
  {
    assert q + (a + as') == (q + a) + as';
    assert (p + q1) + as' == p + (q1 + as');
    assert p + (ps + rest) == (p + ps) + rest;
  }

  lemma {:induction false} FifoConserves<T>(q: seq<T>, bound: nat, ops: seq<Op<T>>)
    ensures q + AcceptedValues(ops, FifoOuts(q, bound, ops))
         == PoppedValues(FifoOuts(q, bound, ops)) + FifoAfter(q, bound, ops)
    decreases |ops|
  {
    if ops != [] {
      var op := ops[0];
      var (q1, out) := FifoStep(q, bound, op);
      var tail := FifoOuts(q1, bound, ops[1..]);
      FifoConserves(q1, bound, ops[1..]);
      var accepted := if op.Push? && out.Accepted? then [op.value] else [];
      var popped := if out.Popped? then [out.value] else [];
      assert q + accepted == popped + q1;
      assert FifoOuts(q, bound, ops)[1..] == tail;
      Regroup(q, accepted, AcceptedValues(ops[1..], tail), popped, q1, PoppedValues(tail), FifoAfter(q1, bound, ops[1..]));
    }
  }

  /** From a new ring on, the values accepted are the values popped followed by those still inside. */
  lemma EachValueLeavesOnce<T>(bound: nat, ops: seq<Op<T>>)
    ensures var outs := RingOuts(NewRing(bound), ops);
            AcceptedValues(ops, outs) == PoppedValues(outs) + RingContents(RingAfter(NewRing(bound), ops))
  {
    var empty: Ring<T> := NewRing(bound);
    RingRefinesFifo(empty, ops);
    FifoConserves(RingContents(empty), bound, ops);
    assert [] + AcceptedValues(ops, RingOuts(empty, ops)) == AcceptedValues(ops, RingOuts(empty, ops));
  }

  // ---------------------------------------------------------------------------
  // The buffer itself

  class LockFreeBoundedRingBuffer<T> {
    const buffer: array<Slot<T>>
    var start: nat
    var end: nat
    var count: nat

    ghost function State(): Ring<T>
      reads this, buffer
    {
      Ring(buffer[..], start, end, count)
    }

    ghost predicate Valid()
      reads this, buffer
    {
      RingValid(State())
    }

    ghost function Contents(): (q: seq<T>)
      reads this, buffer
      requires Valid()
      ensures |q| == count
    {
      RingContents(State())
    }

    constructor (bound: nat)
      ensures Valid() && Contents() == [] && fresh(buffer) && buffer.Length == bound
    {
      buffer := new Slot<T>[bound](_ => Uninit);
      start, end, count := 0, 0, 0;
    }

    method InsertValue(idx: nat, value: T)
      requires idx < buffer.Length
      modifies buffer
      ensures buffer[..] == old(buffer[..])[idx := Init(value)]
    {
      buffer[idx] := Init(value);
    }

    method GetValue(idx: nat) returns (value: T)
      requires idx < buffer.Length && buffer[idx].Init?
      modifies buffer
      ensures value == old(buffer[idx]).value
      ensures buffer[..] == old(buffer[..])[idx := Uninit]
    {
      value := buffer[idx].value;
      buffer[idx] := Uninit;
    }

    method Capacity() returns (n: nat)
      ensures n == buffer.Length
    {
      n := buffer.Length;
    }

    method Len() returns (n: nat)
      requires Valid()
      ensures n == |Contents()|
    {
      n := count;
    }

    method Push(value: T) returns (ok: bool)
      requires Valid()
      modifies this, buffer
      ensures Valid()
      ensures (State(), ok) == PushRing(old(State()), value)
      ensures ok <==> |old(Contents())| < buffer.Length
      ensures Contents() == if ok then old(Contents()) + [value] else old(Contents())
    {
      ghost var was := State();
      PushAppends(was, value);
      var len := Len();
      var capacity := Capacity();
      if len == capacity {
        return false;
      }
      var currentEnd := end;
      var newEnd := if currentEnd + 1 < buffer.Length then currentEnd + 1 else 0;
      InsertValue(currentEnd, value);
      count := count + 1;
      end := newEnd;
      return true;
    }

    method Pop() returns (out: Option<T>)
      requires Valid()
      modifies this, buffer
      ensures Valid()
      ensures (State(), out) == PopRing(old(State()))
      ensures out.None? <==> old(Contents()) == []
      ensures out.Some? ==> out.value == old(Contents())[0] && Contents() == old(Contents())[1..]
      ensures out.None? ==> Contents() == old(Contents())
    {
      ghost var was := State();
      PopTakesOldest(was);
      var currentStart := start;
      var currentEnd := end;
      if currentStart == currentEnd && count == 0 {
        return None;
      }
      assert was.buffer[currentStart].Init?;
      var value := GetValue(currentStart);
      count := count - 1;
      start := if currentStart + 1 >= buffer.Length then 0 else currentStart + 1;
      return Some(value);
    }
  }
}
