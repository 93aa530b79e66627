/** The transaction dispatcher (internal/transaction/dispatcher.go). The goroutine's select makes each of
    its cases one atomic step; the steps below may come in any order. */
module FrameDispatcher {
  import opened Sequences
  import opened WireBytes

  datatype Frame = Frame(contents: seq<Byte>)

  datatype QueuedFrame = QueuedFrame(generation: nat, frame: Frame)

  const BASELINE_IDENT: nat := 0x0a

  predicate IsBaselineHighPriority(frame: Frame) {
    |frame.contents| >= 4 && frame.contents[3] == BASELINE_IDENT && frame.contents[0] >= 0x80
  }

  class FrameQueue {
    const capacity: nat
    var high: seq<Frame>
    var normal: seq<Frame>

    ghost predicate Valid()
      reads this
    {
      && |high| + |normal| <= capacity
      && (forall i :: 0 <= i < |high| ==> IsBaselineHighPriority(high[i]))
      && (forall i :: 0 <= i < |normal| ==> !IsBaselineHighPriority(normal[i]))
    }

    constructor (capacity: nat)
      requires capacity > 0
      ensures Valid() && this.capacity == capacity && high == [] && normal == []
    {
      this.capacity, high, normal := capacity, [], [];
    }

    method Push(frame: Frame) returns (ok: bool)
      requires Valid()
      modifies this
      ensures Valid()
      ensures ok <==> old(|high| + |normal|) < capacity
      ensures high == old(high) + if ok && IsBaselineHighPriority(frame) then [frame] else []
      ensures normal == old(normal) + if ok && !IsBaselineHighPriority(frame) then [frame] else []
    {
      if Length() >= capacity {
        return false;
      }
      if IsBaselineHighPriority(frame) {
        high := high + [frame];
      } else {
        normal := normal + [frame];
      }
      ok := true;
    }

    function Peek(): Option<Frame>
      reads this
    {
      if |high| != 0 then Some(high[0]) else if |normal| != 0 then Some(normal[0]) else None
    }

    /** Removes the frame that Peek shows. */
    method Pop()
      requires Valid()
      modifies this
      ensures Valid()
      ensures old(Peek()).None? ==> high == old(high) && normal == old(normal)
      ensures old(|high|) > 0 ==> high == old(high)[1..] && normal == old(normal) && old(Peek()) == Some(old(high)[0])
      ensures old(|high|) == 0 && old(|normal|) > 0 ==>
                high == old(high) && normal == old(normal)[1..] && old(Peek()) == Some(old(normal)[0])
    {
      if |high| != 0 {
        high := high[1..];
      } else if |normal| != 0 {
        normal := normal[1..];
      }
    }

    method Clear()
      requires Valid()
      modifies this
      ensures Valid() && high == [] && normal == []
    {
      high, normal := [], [];
    }

    function Length(): nat
      reads this
    {
      |high| + |normal|
    }
  }

  /** A frame handed to the reader: the generation it was tagged with, and the one it was delivered in. */
  datatype Delivery = Delivery(item: QueuedFrame, during: nat)

  function FramesOf(items: seq<QueuedFrame>): seq<Frame> {
    seq(|items|, i requires 0 <= i < |items| => items[i].frame)
  }

  class Dispatcher {
    const queue: FrameQueue
    var generation: nat
    var stopped: bool
    /** Accepted since the last reset, by class, and how many of each have been delivered. */
    ghost var acceptedHigh: seq<QueuedFrame>
    ghost var acceptedNormal: seq<QueuedFrame>
    ghost var deliveredHigh: nat
    ghost var deliveredNormal: nat
    /** Every delivery of the whole run, oldest first. */
    ghost var deliveries: seq<Delivery>

    /** Each class of the queue is what remains of the frames accepted in this generation. */
    ghost predicate Valid()
      reads this, queue
    {
      && queue.Valid() && Fresh(deliveries, generation)
      && Tracks(queue.high, acceptedHigh, deliveredHigh, deliveries, generation, true)
      && Tracks(queue.normal, acceptedNormal, deliveredNormal, deliveries, generation, false)
    }

    constructor (capacity: nat)
      requires capacity > 0
      ensures Valid() && generation == 0 && !stopped && deliveries == [] && fresh(queue)
      ensures acceptedHigh == acceptedNormal == [] && queue.capacity == capacity
    {
      queue := new FrameQueue(capacity);
      generation, stopped := 0, false;
      acceptedHigh, acceptedNormal, deliveredHigh, deliveredNormal, deliveries := [], [], 0, 0, [];
    }

    /** A reset drops every queued frame and starts the next generation. */
    method OnReset() returns (acknowledged: nat)
      requires Valid() && !stopped
      modifies this, queue
      ensures Valid() && !stopped
      ensures acknowledged == generation == old(generation) + 1
      ensures acceptedHigh == acceptedNormal == [] && deliveredHigh == deliveredNormal == 0
      ensures deliveries == old(deliveries)
    {
      hide Tracks;
      TracksNothing(deliveries, generation, true);
      TracksNothing(deliveries, generation, false);
      generation := generation + 1;
      queue.Clear();
      acceptedHigh, acceptedNormal, deliveredHigh, deliveredNormal := [], [], 0, 0;
      acknowledged := generation;
    }

    /** A frame of another generation is dropped silently; a frame the queue cannot hold stops the
        dispatcher. */
    method OnIngress(item: QueuedFrame)
      requires Valid() && !stopped
      modifies this, queue
      ensures Valid() && generation == old(generation) && deliveries == old(deliveries)
      ensures deliveredHigh == old(deliveredHigh) && deliveredNormal == old(deliveredNormal)
      ensures stopped <==> item.generation == generation && old(queue.Length()) == queue.capacity
      ensures var accepted := item.generation == generation && !stopped;
        && acceptedHigh == old(acceptedHigh) + (if accepted && IsBaselineHighPriority(item.frame) then [item] else [])
        && acceptedNormal ==
           old(acceptedNormal) + (if accepted && !IsBaselineHighPriority(item.frame) then [item] else [])
    {
      hide Tracks, Fresh;
      if item.generation != generation {
        return;
      }
      ghost var high, normal := queue.high, queue.normal;
      var ok := queue.Push(item.frame);
      assert queue.high == high || queue.normal == normal;
      if !ok {
        assert queue.high == high && queue.normal == normal;
        stopped := true;
        return;
      }
      if IsBaselineHighPriority(item.frame) {
        TracksAccepted(high, acceptedHigh, deliveredHigh, deliveries, generation, item);
        acceptedHigh := acceptedHigh + [item];
      } else {
        TracksAccepted(normal, acceptedNormal, deliveredNormal, deliveries, generation, item);
        acceptedNormal := acceptedNormal + [item];
      }
    }

    /** The reader takes the next frame: the oldest undelivered high-priority frame of this generation, or
        the oldest normal one when no high-priority frame is queued. */
    method OnDeliver() returns (frame: Frame)
      requires Valid() && !stopped && queue.Length() > 0
      modifies this, queue
      ensures Valid() && !stopped && generation == old(generation)
      ensures acceptedHigh == old(acceptedHigh) && acceptedNormal == old(acceptedNormal)
      ensures deliveredHigh <= |acceptedHigh| && deliveredNormal <= |acceptedNormal|
      ensures old(queue.high) != [] ==>
                && deliveredHigh == old(deliveredHigh) + 1 && deliveredNormal == old(deliveredNormal)
                && frame == acceptedHigh[old(deliveredHigh)].frame
                && deliveries == old(deliveries) + [Delivery(acceptedHigh[old(deliveredHigh)], generation)]
      ensures old(queue.high) == [] ==>
                && deliveredNormal == old(deliveredNormal) + 1 && deliveredHigh == old(deliveredHigh) == |acceptedHigh|
                && frame == acceptedNormal[old(deliveredNormal)].frame
                && deliveries == old(deliveries) + [Delivery(acceptedNormal[old(deliveredNormal)], generation)]
    {
      hide Tracks, Fresh, IsBaselineHighPriority;
      frame := queue.Peek().value;
      if |queue.high| != 0 {
        ghost var item := NextOf(queue.high, acceptedHigh, deliveredHigh, deliveries, generation, true);
        TracksDelivered(queue.high, acceptedHigh, deliveredHigh, deliveries, generation, true);
        TracksOther(queue.normal, acceptedNormal, deliveredNormal, deliveries, generation, item);
        FreshNext(deliveries, generation, item);
        deliveries := deliveries + [Delivery(item, generation)];
        deliveredHigh := deliveredHigh + 1;
      } else {
        ghost var item := NextOf(queue.normal, acceptedNormal, deliveredNormal, deliveries, generation, false);
        TracksDelivered(queue.normal, acceptedNormal, deliveredNormal, deliveries, generation, false);
        TracksOther(queue.high, acceptedHigh, deliveredHigh, deliveries, generation, item);
        TracksEmpty(queue.high, acceptedHigh, deliveredHigh, deliveries, generation, true);
        FreshNext(deliveries, generation, item);
        deliveries := deliveries + [Delivery(item, generation)];
        deliveredNormal := deliveredNormal + 1;
      }
      queue.Pop();
    }

    /** No frame is delivered after a reset that was tagged before it: in the whole run, every delivery
        happens in the generation of its frame, and generations never go back. */
    lemma NoStaleDelivery(early: nat, late: nat)
      requires Valid() && early <= late < |deliveries|
      ensures deliveries[late].item.generation >= deliveries[early].during
      ensures deliveries[late].during <= generation
    {}

    /** In each class the frames that were delivered in this generation are a prefix of those accepted in it,
        in order, and the queue holds exactly the others. */
    lemma DeliveredIsPrefix(high: bool)
      requires Valid()
      ensures var delivered := DeliveredOf(deliveries, generation, high);
        var accepted := if high then acceptedHigh else acceptedNormal;
        var queued := if high then queue.high else queue.normal;
        && delivered <= accepted
        && FramesOf(accepted) == FramesOf(delivered) + queued
      ensures |queue.high| + |queue.normal| <= queue.capacity
    {
      var accepted, n := if high then acceptedHigh else acceptedNormal, if high then deliveredHigh else deliveredNormal;
      assert accepted == accepted[..n] + accepted[n..];
    }
  }

  /** What was delivered in one generation from one class, oldest first. */
  ghost function DeliveredOf(deliveries: seq<Delivery>, generation: nat, high: bool): seq<QueuedFrame> {
    if deliveries == [] then []
    else
      var last := deliveries[|deliveries| - 1];
      DeliveredOf(deliveries[..|deliveries| - 1], generation, high) +
      if last.during == generation && IsBaselineHighPriority(last.item.frame) == high then [last.item] else []
  }

  /** One class: what was accepted in this generation, the part of it that was delivered, and the rest,
      which is queued. */
  ghost predicate Tracks(queued: seq<Frame>, accepted: seq<QueuedFrame>, delivered: nat, deliveries: seq<Delivery>,
                         generation: nat, high: bool) {
    && delivered <= |accepted|
    && queued == FramesOf(accepted[delivered..])
    && DeliveredOf(deliveries, generation, high) == accepted[..delivered]
    && forall i :: 0 <= i < |accepted| ==>
         accepted[i].generation == generation && IsBaselineHighPriority(accepted[i].frame) == high
  }

  lemma TracksNothing(deliveries: seq<Delivery>, generation: nat, high: bool)
    requires Fresh(deliveries, generation)
    ensures Fresh(deliveries, generation + 1)
    ensures Tracks([], [], 0, deliveries, generation + 1, high)
  {
    NothingDelivered(deliveries, generation, high);
  }

  lemma {:induction false} NothingDelivered(deliveries: seq<Delivery>, generation: nat, high: bool)
    requires forall i :: 0 <= i < |deliveries| ==> deliveries[i].during <= generation
    ensures DeliveredOf(deliveries, generation + 1, high) == []
  {
    if deliveries != [] {
      NothingDelivered(deliveries[..|deliveries| - 1], generation, high);
    }
  }

  lemma TracksAccepted(queued: seq<Frame>, accepted: seq<QueuedFrame>, delivered: nat, deliveries: seq<Delivery>,
                       generation: nat, item: QueuedFrame)
    requires Tracks(queued, accepted, delivered, deliveries, generation, IsBaselineHighPriority(item.frame))
    requires item.generation == generation
    ensures Tracks(queued + [item.frame], accepted + [item], delivered, deliveries, generation,
                   IsBaselineHighPriority(item.frame))
  {
    AcceptNext(accepted, delivered, item);
    assert (accepted + [item])[..delivered] == accepted[..delivered];
  }

  /** The item behind the head of the queue. */
  ghost function NextOf(queued: seq<Frame>, accepted: seq<QueuedFrame>, delivered: nat, deliveries: seq<Delivery>,
                        generation: nat, high: bool): (item: QueuedFrame)
    requires Tracks(queued, accepted, delivered, deliveries, generation, high) && queued != []
    ensures delivered < |accepted| && item == accepted[delivered] && item.frame == queued[0]
    ensures item.generation == generation && IsBaselineHighPriority(item.frame) == high
  {
    DeliverNext(accepted, delivered);
    accepted[delivered]
  }

  lemma TracksDelivered(queued: seq<Frame>, accepted: seq<QueuedFrame>, delivered: nat, deliveries: seq<Delivery>,
                        generation: nat, high: bool)
    requires Tracks(queued, accepted, delivered, deliveries, generation, high) && queued != []
    ensures var item := NextOf(queued, accepted, delivered, deliveries, generation, high);
      Tracks(queued[1..], accepted, delivered + 1, deliveries + [Delivery(item, generation)], generation, high)
  {
    var item := NextOf(queued, accepted, delivered, deliveries, generation, high);
    DeliverNext(accepted, delivered);
    DeliveredNext(deliveries, generation, item, high);
    assert accepted[..delivered + 1] == accepted[..delivered] + [item];
  }

  lemma TracksOther(queued: seq<Frame>, accepted: seq<QueuedFrame>, delivered: nat, deliveries: seq<Delivery>,
                    generation: nat, item: QueuedFrame)
    requires Tracks(queued, accepted, delivered, deliveries, generation, !IsBaselineHighPriority(item.frame))
    ensures Tracks(queued, accepted, delivered, deliveries + [Delivery(item, generation)], generation,
                   !IsBaselineHighPriority(item.frame))
  {
    DeliveredNext(deliveries, generation, item, !IsBaselineHighPriority(item.frame));
  }

  lemma TracksEmpty(queued: seq<Frame>, accepted: seq<QueuedFrame>, delivered: nat, deliveries: seq<Delivery>,
                    generation: nat, high: bool)
    requires Tracks(queued, accepted, delivered, deliveries, generation, high)
    ensures delivered <= |accepted| && (queued == [] <==> delivered == |accepted|)
  {}

  lemma DeliveredNext(deliveries: seq<Delivery>, generation: nat, item: QueuedFrame, high: bool)
    ensures DeliveredOf(deliveries + [Delivery(item, generation)], generation, high) ==
            DeliveredOf(deliveries, generation, high) +
            if IsBaselineHighPriority(item.frame) == high then [item] else []
  {
    assert (deliveries + [Delivery(item, generation)])[..|deliveries|] == deliveries;
  }

  lemma FreshNext(deliveries: seq<Delivery>, generation: nat, item: QueuedFrame)
    requires Fresh(deliveries, generation) && item.generation == generation
    ensures Fresh(deliveries + [Delivery(item, generation)], generation)
  {}

  ghost predicate Fresh(deliveries: seq<Delivery>, generation: nat) {
    && (forall i :: 0 <= i < |deliveries| ==>
          deliveries[i].item.generation == deliveries[i].during <= generation)
    && (forall i, j :: 0 <= i < j < |deliveries| ==> deliveries[i].during <= deliveries[j].during)
  }

  lemma AcceptNext(items: seq<QueuedFrame>, delivered: nat, item: QueuedFrame)
    requires delivered <= |items|
    ensures FramesOf((items + [item])[delivered..]) == FramesOf(items[delivered..]) + [item.frame]
  {}

  lemma DeliverNext(items: seq<QueuedFrame>, delivered: nat)
    requires delivered <= |items| && FramesOf(items[delivered..]) != []
    ensures delivered < |items|
    ensures FramesOf(items[delivered..])[0] == items[delivered].frame
    ensures FramesOf(items[delivered..])[1..] == FramesOf(items[delivered + 1..])
  {}
}
