/**
 Several channels on one reactor, over histories of calls that do not overlap: which waker
 the reactor holds for each, and that a send followed by a drain wakes it.
 */
module ChannelNets {
  import opened Wrappers
  import opened Reactors
  import opened Dispatching
  import opened Channels

  datatype Chan<T> = Chan(bound: nat, queue: seq<T>, count: nat)

  /** The channels by their tags, and the part of the reactor that they share. */
  datatype Net<T> = Net(chans: map<ReactorTag, Chan<T>>, tags: seq<ReactorTag>, woken: bool, wakers: map<ReactorTag, Waker>)

  datatype NetOp<T> = SendOn(tag: ReactorTag, value: T) | PollOn(tag: ReactorTag, waker: Waker) | Drain

  function LinkOf<T>(n: Net<T>, tag: ReactorTag): Link<T>
    requires tag in n.chans
  {
    var c := n.chans[tag];
    Link(c.bound, c.queue, c.count, n.tags, n.woken, n.wakers)
  }

  function Rejoin<T>(n: Net<T>, tag: ReactorTag, l: Link<T>): Net<T> {
    Net(n.chans[tag := Chan(l.bound, l.queue, l.count)], l.tags, l.woken, l.wakers)
  }

  /** What the reactor wakes when it drains. */
  function Woken<T>(n: Net<T>): seq<Waker> {
    WakersOf(n.tags, n.wakers)
  }

  predicate Known<T>(n: Net<T>, op: NetOp<T>) {
    op.Drain? || op.tag in n.chans
  }

  function NetStep<T>(n: Net<T>, op: NetOp<T>): Net<T>
    requires Known(n, op)
  {
    match op
    case SendOn(tag, v) => Rejoin(n, tag, SendCall(LinkOf(n, tag), tag, v).0)
    case PollOn(tag, w) => Rejoin(n, tag, RecvCall(LinkOf(n, tag), tag, w).0)
    case Drain => n.(tags := [], woken := false)
  }

  predicate History<T>(n: Net<T>, h: seq<NetOp<T>>) {
    forall k :: 0 <= k < |h| ==> Known(n, h[k])
  }

  /** The net after the first `i` operations. */
  function NetAt<T>(n: Net<T>, h: seq<NetOp<T>>, i: nat): (n': Net<T>)
    requires History(n, h) && i <= |h|
    ensures n'.chans.Keys == n.chans.Keys
  {
    if i == 0 then n else NetStep(NetAt(n, h, i - 1), h[i - 1])
  }

  /** Operation `i` is a send that goes through: there is room for the value and for its tag. */
  predicate SendsAt<T>(n: Net<T>, h: seq<NetOp<T>>, i: nat, tag: ReactorTag)
    requires History(n, h) && i < |h|
  {
    h[i].SendOn? && h[i].tag == tag && HasRoom(NetAt(n, h, i), tag)
  }

  predicate HasRoom<T>(n: Net<T>, tag: ReactorTag)
    requires tag in n.chans
  {
    |n.chans[tag].queue| < n.chans[tag].bound && |n.tags| < TAG_CAPACITY
  }

  /** Operation `i` is a poll that parks: the count of the channel is zero. */

  predicate ParksAt<T>(n: Net<T>, h: seq<NetOp<T>>, i: nat, tag: ReactorTag)
    requires History(n, h) && i < |h|
  {
    h[i].PollOn? && h[i].tag == tag && NetAt(n, h, i).chans[tag].count == 0
  }

  /** The last poll of the channel before operation `i` that parked. */
  function LastPark<T>(n: Net<T>, h: seq<NetOp<T>>, i: nat, tag: ReactorTag): Option<nat>
    requires History(n, h) && i <= |h|
  {
    if i == 0 then None
    else if ParksAt(n, h, i - 1, tag) then Some(i - 1)
    else LastPark(n, h, i - 1, tag)
  }

  lemma {:induction false} LastParkIsLast<T>(n: Net<T>, h: seq<NetOp<T>>, i: nat, tag: ReactorTag)
    requires History(n, h) && i <= |h|
    ensures var j := LastPark(n, h, i, tag);
            && (j.Some? ==> j.value < i && ParksAt(n, h, j.value, tag))
            && forall k :: (if j.Some? then j.value else -1) < k < i ==> !ParksAt(n, h, k, tag)
  {
    if i > 0 {
      LastParkIsLast(n, h, i - 1, tag);
    }
  }

  /** No call for one channel changes another, nor the waker of another. */
  lemma ChannelsAreApart<T>(n: Net<T>, op: NetOp<T>, tag: ReactorTag)
    requires Known(n, op) && tag in n.chans && (op.Drain? || op.tag != tag)
    ensures var n' := NetStep(n, op);
            && n'.chans[tag] == n.chans[tag]
            && (tag in n'.wakers <==> tag in n.wakers)
            && (tag in n.wakers ==> n'.wakers[tag] == n.wakers[tag])
  {
  }

  /** Of the calls for a channel itself, only a poll that parks changes its waker, to its own. */
  lemma OnlyParksStore<T>(n: Net<T>, op: NetOp<T>, tag: ReactorTag)
    requires Known(n, op) && tag in n.chans && !op.Drain? && op.tag == tag
    ensures var n' := NetStep(n, op);
            if op.PollOn? && n.chans[tag].count == 0 then n'.wakers == n.wakers[tag := op.waker]
            else n'.wakers == n.wakers
  {
  }

  /** A poll that parks answers pending, and a send that goes through is accepted; no other poll or send does. */
  lemma CallsAnswer<T>(n: Net<T>, h: seq<NetOp<T>>, i: nat, tag: ReactorTag)
    requires History(n, h) && i < |h| && !h[i].Drain? && h[i].tag == tag
    ensures h[i].PollOn? ==> (ParksAt(n, h, i, tag) <==> RecvCall(LinkOf(NetAt(n, h, i), tag), tag, h[i].waker).1.Pending?)
    ensures h[i].SendOn? ==> (SendsAt(n, h, i, tag) <==> SendCall(LinkOf(NetAt(n, h, i), tag), tag, h[i].value).1.Accepted?)
  {
  }

  /** What an operation does to the tags. */
  lemma OnlySendsSignal<T>(n: Net<T>, op: NetOp<T>)
    requires Known(n, op)
    ensures var n' := NetStep(n, op);
            if op.Drain? then n'.tags == [] && !n'.woken
            else if op.SendOn? && HasRoom(n, op.tag) then n'.tags == n.tags + [op.tag] && n'.woken
            else n'.tags == n.tags && n'.woken == n.woken
  {
  }

  lemma WakerStep<T>(n: Net<T>, h: seq<NetOp<T>>, i: nat, tag: ReactorTag)
    requires History(n, h) && i < |h| && tag in n.chans
    ensures var (before, behind) := (NetAt(n, h, i).wakers, NetAt(n, h, i + 1).wakers);
            && (tag in behind <==> tag in before || ParksAt(n, h, i, tag))
            && (tag in behind ==> behind[tag] == if ParksAt(n, h, i, tag) then h[i].waker else before[tag])
  {
    if !h[i].Drain? && h[i].tag == tag {
      OnlyParksStore(NetAt(n, h, i), h[i], tag);
    } else {
      ChannelsAreApart(NetAt(n, h, i), h[i], tag);
    }
  }

  lemma LastParkStep<T>(n: Net<T>, h: seq<NetOp<T>>, i: nat, tag: ReactorTag)
    requires History(n, h) && i < |h|
    ensures LastPark(n, h, i + 1, tag) == if ParksAt(n, h, i, tag) then Some(i) else LastPark(n, h, i, tag)
  {
  }

  /** The waker held for a tag is that of poll `last`, or none. */
  predicate HoldsOf<T>(h: seq<NetOp<T>>, last: Option<nat>, wakers: map<ReactorTag, Waker>, tag: ReactorTag) {
    match last
    case None => tag !in wakers
    case Some(j) => j < |h| && h[j].PollOn? && tag in wakers && wakers[tag] == h[j].waker
  }

  lemma HoldsNext<T>(h: seq<NetOp<T>>, last: Option<nat>, before: map<ReactorTag, Waker>, behind: map<ReactorTag, Waker>,
                     tag: ReactorTag, i: nat, parks: bool)
    requires HoldsOf(h, last, before, tag) && i < |h| && (parks ==> h[i].PollOn?)
    requires tag in behind <==> tag in before || parks
    requires tag in behind ==> behind[tag] == if parks then h[i].waker else before[tag]
    ensures HoldsOf(h, if parks then Some(i) else last, behind, tag)
  {
  }

  /**
   Over any history of any number of channels, the reactor holds for each the waker of the last
   poll of that channel that parked, and none if there was none.
   */
  lemma {:induction false} WakerIsOfLastPark<T>(n: Net<T>, h: seq<NetOp<T>>, i: nat, tag: ReactorTag)
    requires History(n, h) && i <= |h| && tag in n.chans && n.wakers == map[]
    ensures HoldsOf(h, LastPark(n, h, i, tag), NetAt(n, h, i).wakers, tag)
  {
    if i > 0 {
      var j := i - 1;
      WakerIsOfLastPark(n, h, j, tag);
      WakerStep(n, h, j, tag);
      LastParkStep(n, h, j, tag);
      HoldsNext(h, LastPark(n, h, j, tag), NetAt(n, h, j).wakers, NetAt(n, h, j + 1).wakers, tag, j, ParksAt(n, h, j, tag));
    }
  }

  /** The tags of the sends that went through since the last drain, in order. */
  function Signalled<T>(n: Net<T>, h: seq<NetOp<T>>, i: nat): seq<ReactorTag>
    requires History(n, h) && i <= |h|
  {
    if i == 0 || h[i - 1].Drain? then []
    else Signalled(n, h, i - 1) + (if h[i - 1].SendOn? && SendsAt(n, h, i - 1, h[i - 1].tag) then [h[i - 1].tag] else [])
  }

  lemma SignalStep<T>(n: Net<T>, h: seq<NetOp<T>>, i: nat)
    requires History(n, h) && i < |h|
    ensures var (before, behind) := (NetAt(n, h, i), NetAt(n, h, i + 1));
            if h[i].Drain? then behind.tags == [] && !behind.woken
            else if h[i].SendOn? && SendsAt(n, h, i, h[i].tag) then behind.tags == before.tags + [h[i].tag] && behind.woken
            else behind.tags == before.tags && behind.woken == before.woken
  {
    OnlySendsSignal(NetAt(n, h, i), h[i]);
  }

  lemma SignalledStep<T>(n: Net<T>, h: seq<NetOp<T>>, i: nat)
    requires History(n, h) && i < |h|
    ensures Signalled(n, h, i + 1) ==
              if h[i].Drain? then []
              else if h[i].SendOn? && SendsAt(n, h, i, h[i].tag) then Signalled(n, h, i) + [h[i].tag]
              else Signalled(n, h, i)
  {
  }

  /** The buffer holds exactly these tags, and the mio wake is pending exactly if there are any. */
  lemma {:induction false} TagsAreSignals<T>(n: Net<T>, h: seq<NetOp<T>>, i: nat)
    requires History(n, h) && i <= |h| && n.tags == [] && !n.woken
    ensures NetAt(n, h, i).tags == Signalled(n, h, i)
    ensures NetAt(n, h, i).woken <==> Signalled(n, h, i) != []
  {
    if i > 0 {
      var j := i - 1;
      TagsAreSignals(n, h, j);
      SignalStep(n, h, j);
      SignalledStep(n, h, j);
    }
  }

  lemma {:induction false} SendIsSignalled<T>(n: Net<T>, h: seq<NetOp<T>>, j: nat, i: nat, tag: ReactorTag)
    requires History(n, h) && j < i <= |h| && SendsAt(n, h, j, tag)
    requires forall k :: j < k < i ==> !h[k].Drain?
    ensures tag in Signalled(n, h, i)
  {
    if j < i - 1 {
      SendIsSignalled(n, h, j, i - 1, tag);
    }
  }

  /**
   A send that goes through wakes the receiver at the next drain: the mio wake is pending, and
   the drain wakes the waker of the last poll of this channel that parked.
   */
  lemma SendThenDrainWakes<T>(n: Net<T>, h: seq<NetOp<T>>, p: nat, j: nat, i: nat, tag: ReactorTag)
    requires History(n, h) && i <= |h| && tag in n.chans && n.tags == [] && !n.woken && n.wakers == map[]
    requires LastPark(n, h, i, tag) == Some(p) && j < i && SendsAt(n, h, j, tag)
    requires forall k :: j < k < i ==> !h[k].Drain?
    ensures p < |h| && h[p].PollOn?
    ensures NetAt(n, h, i).woken && h[p].waker in Woken(NetAt(n, h, i))
  {
    WakerIsOfLastPark(n, h, i, tag);
    TagsAreSignals(n, h, i);
    SendIsSignalled(n, h, j, i, tag);
    TagWakes(NetAt(n, h, i).tags, NetAt(n, h, i).wakers, tag);
  }
}
