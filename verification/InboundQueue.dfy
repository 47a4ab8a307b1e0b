/** The queue of packets in flight, and the future that delivers them in batches. */
module InboundQueues {
  import opened Types
  import Pacing

  type Waker = nat

  datatype Item = Item(packet: PacketId, number: nat, sent: Time, delay: Time) {
    function Arrival(): Time {
      sent + delay
    }
  }

  /** The heap's order: by arrival time, then by packet number. Duplicates share their number. */
  predicate NotAfter(a: Item, b: Item) {
    a.Arrival() < b.Arrival() || (a.Arrival() == b.Arrival() && a.number <= b.number)
  }

  predicate IsFirst(queue: multiset<Item>, x: Item) {
    x in queue && forall y :: y in queue ==> NotAfter(x, y)
  }

  datatype PollResult = Pending | Ready(batch: seq<Item>)

  datatype PollState = PollState(queue: multiset<Item>, sleep: Option<Time>, wakers: seq<Waker>)

  // ----- What a poll promises -----

  /** The batch comes off the queue in order, and nothing left behind should have come first. */
  ghost predicate TakesFirst(queue: multiset<Item>, batch: seq<Item>, rest: multiset<Item>) {
    && queue == multiset(batch) + rest
    && (forall i, j :: 0 <= i < j < |batch| ==> NotAfter(batch[i], batch[j]))
    && (forall x, y :: x in batch && y in rest ==> NotAfter(x, y))
  }

  /** The timer is set for the first packet that is left, unless there is none or the batch is full. */
  ghost predicate SleepsUntilFirst(b: PollState, full: bool) {
    if full || b.queue == multiset{} then b.sleep.None?
    else b.sleep.Some? && exists x :: IsFirst(b.queue, x) && b.sleep.value == x.Arrival()
  }

  /** A batch of all the packets that are due, or of as many as are asked for. */
  ghost predicate TakesDue(a: PollState, max: nat, now: Time, b: PollState, batch: seq<Item>) {
    && TakesFirst(a.queue, batch, b.queue)
    && |batch| <= max
    && (forall x :: x in batch ==> x.Arrival() <= now)
    && (|batch| < max ==> forall x :: x in b.queue ==> now < x.Arrival())
    && SleepsUntilFirst(b, |batch| == max)
  }

  /**
   * A poll at `now`. If an earlier poll set the timer and it has not run out, nothing at all
   * happens: not even the queue's first packet is looked at.
   */
  ghost predicate Polled(a: PollState, max: nat, now: Time, waker: Waker, b: PollState, r: PollResult) {
    if max == 0 then r.Pending? && b == a.(wakers := a.wakers + [waker])
    else if a.sleep.Some? && now < a.sleep.value then r.Pending? && b == a
    else
      var batch := if r.Ready? then r.batch else [];
      && TakesDue(a, max, now, b, batch)
      && (r.Ready? <==> batch != [])
      && b.wakers == a.wakers + if r.Pending? && b.queue == multiset{} then [waker] else []
  }

  class InboundQueue {
    var queue: multiset<Item>
    var notifyNewTransmits: seq<Waker>

    constructor ()
      ensures queue == multiset{} && notifyNewTransmits == []
    {
      queue, notifyNewTransmits := multiset{}, [];
    }

    /** Queues the packet and wakes everyone who waits for one. */
    method Send(packet: PacketId, number: nat, delay: Time, now: Time) returns (woken: seq<Waker>)
      modifies this
      ensures queue == old(queue) + multiset{Item(packet, number, now, delay)}
      ensures woken == old(notifyNewTransmits) && notifyNewTransmits == []
    {
      queue := queue + multiset{Item(packet, number, now, delay)};
      woken := notifyNewTransmits;
      notifyNewTransmits := [];
    }

    method Peek() returns (x: Item)
      requires queue != multiset{}
      ensures IsFirst(queue, x)
    {
      FirstExists(queue);
      x :| IsFirst(queue, x);
    }

    method Pop() returns (x: Item)
      requires queue != multiset{}
      modifies this`queue
      ensures IsFirst(old(queue), x) && queue == old(queue) - multiset{x}
    {
      x := Peek();
      queue := queue - multiset{x};
    }
  }

  lemma {:induction false} FirstExists(queue: multiset<Item>)
    requires queue != multiset{}
    ensures exists x :: IsFirst(queue, x)
    decreases |queue|
  {
    var y :| y in queue;
    var rest := queue - multiset{y};
    if rest == multiset{} {
      assert queue == multiset{y};
      assert IsFirst(queue, y);
    } else {
      FirstExists(rest);
      var x :| IsFirst(rest, x);
      assert queue == rest + multiset{y};
      assert IsFirst(queue, if NotAfter(x, y) then x else y);
    }
  }

  lemma PopExtends(queue: multiset<Item>, batch: seq<Item>, rest: multiset<Item>, x: Item)
    requires TakesFirst(queue, batch, rest) && IsFirst(rest, x)
    ensures TakesFirst(queue, batch + [x], rest - multiset{x})
  {
    assert rest == rest - multiset{x} + multiset{x};
    forall y | y in rest - multiset{x}
      ensures NotAfter(x, y)
    {
      assert y in rest;
    }
  }

  // ----- A poll under way -----

  predicate Running(sleep: Option<Time>, now: Time) {
    sleep.Some? && now < sleep.value
  }

  /** From `a`, a poll at `now` has come to `b`, and has taken `delivered` off the queue. */
  ghost predicate Polling(a: PollState, max: nat, now: Time, b: PollState, delivered: seq<Item>) {
    && |delivered| <= max && b.wakers == a.wakers
    && TakesFirst(a.queue, delivered, b.queue)
    && (forall x :: x in delivered ==> x.Arrival() <= now)
    && ((b == a && delivered == []) || (max > 0 && !Running(a.sleep, now)
        && (b.sleep.Some? ==> Running(b.sleep, now) && |delivered| < max && SleepsUntilFirst(b, false))))
  }

  lemma PollStarts(a: PollState, max: nat, now: Time)
    ensures Polling(a, max, now, a, [])
  {
  }

  lemma TimerRanOut(a: PollState, max: nat, now: Time, b: PollState)
    requires Polling(a, max, now, b, []) && max > 0 && !Running(b.sleep, now)
    ensures Polling(a, max, now, b.(sleep := None), [])
  {
  }

  lemma SetsTimer(a: PollState, max: nat, now: Time, b: PollState, delivered: seq<Item>, x: Item)
    requires Polling(a, max, now, b, delivered) && b.sleep.None? && |delivered| < max
    requires IsFirst(b.queue, x) && now < x.Arrival()
    ensures Polling(a, max, now, b.(sleep := Some(x.Arrival())), delivered)
  {
    hide TakesFirst;
  }

  lemma Delivers(a: PollState, max: nat, now: Time, b: PollState, delivered: seq<Item>, x: Item)
    requires Polling(a, max, now, b, delivered) && b.sleep.None? && |delivered| < max
    requires IsFirst(b.queue, x) && x.Arrival() <= now
    ensures Polling(a, max, now, b.(queue := b.queue - multiset{x}), delivered + [x])
  {
    PopExtends(a.queue, delivered, b.queue, x);
    hide TakesFirst;
  }

  lemma PollEnds(a: PollState, max: nat, now: Time, waker: Waker, b: PollState, delivered: seq<Item>)
    requires Polling(a, max, now, b, delivered)
    requires |delivered| >= max || (b.sleep.Some? && delivered != []) || (b.sleep.None? && b.queue == multiset{})
    ensures delivered != [] ==> Polled(a, max, now, waker, b, Ready(delivered))
    ensures delivered == [] ==> Polled(a, max, now, waker, b.(wakers := b.wakers + [waker]), Pending)
  {
    if max > 0 && !Running(a.sleep, now) {
      TimerMeans(b, now);
      hide TakesFirst, IsFirst;
    }
  }

  lemma TimerMeans(b: PollState, now: Time)
    ensures Running(b.sleep, now) && SleepsUntilFirst(b, false) ==> forall x :: x in b.queue ==> now < x.Arrival()
  {
  }

  lemma PollSleeps(a: PollState, max: nat, now: Time, waker: Waker, b: PollState)
    requires Polling(a, max, now, b, []) && Running(b.sleep, now) && max > 0
    ensures Polled(a, max, now, waker, b, Pending)
  {
    TimerMeans(b, now);
    hide TakesFirst, IsFirst;
  }

  class NextPacketDelivery {
    var sleep: Option<Time>
    const queue: InboundQueue
    const maxTransmits: nat

    constructor (queue: InboundQueue, maxTransmits: nat)
      ensures sleep.None? && this.queue == queue && this.maxTransmits == maxTransmits
    {
      sleep := None;
      this.queue, this.maxTransmits := queue, maxTransmits;
    }

    ghost function View(): PollState
      reads this, queue
    {
      PollState(queue.queue, sleep, queue.notifyNewTransmits)
    }

    method Poll(waker: Waker, now: Time) returns (r: PollResult)
      modifies this`sleep, queue
      ensures Polled(old(View()), maxTransmits, now, waker, View(), r)
    {
      var delivered := [];
      ghost var a := View();
      hide Polling, Polled, IsFirst;
      PollStarts(a, maxTransmits, now);
      while true
        invariant |delivered| <= maxTransmits
        invariant Polling(a, maxTransmits, now, View(), delivered)
        decreases maxTransmits - |delivered|, if Running(sleep, now) then 0 else 1
      {
        if |delivered| >= maxTransmits {
          break;
        }
        if sleep.Some? {
          if delivered != [] {
            break;
          }
          if now < sleep.value {
            PollSleeps(a, maxTransmits, now, waker, View());
            return Pending;
          }
          TimerRanOut(a, maxTransmits, now, View());
          sleep := None;
        }
        if queue.queue == multiset{} {
          break;
        }
        var next := queue.Peek();
        if now < next.Arrival() {
          SetsTimer(a, maxTransmits, now, View(), delivered, next);
          sleep := Some(next.Arrival());
        } else {
          ghost var b := View();
          var data := queue.Pop();
          SameArrival(b.queue, next, data);
          Delivers(a, maxTransmits, now, b, delivered, data);
          delivered := delivered + [data];
        }
      }
      PollEnds(a, maxTransmits, now, waker, View(), delivered);
      if delivered == [] {
        queue.notifyNewTransmits := queue.notifyNewTransmits + [waker];
        return Pending;
      }
      return Ready(delivered);
    }
  }

  /** Whichever of several first packets is popped, it arrives when the one that was looked at does. */
  lemma SameArrival(queue: multiset<Item>, x: Item, y: Item)
    requires IsFirst(queue, x) && IsFirst(queue, y)
    ensures x.Arrival() == y.Arrival()
  {
  }
}
