/** Any interleaving of sends and polls on one queue: what is delivered, in which order, and when. */
module Deliveries {
  import opened Types
  import opened InboundQueues
  import Pacing

  datatype Event =
    | Push(item: Item)
    | Poll(max: nat, now: Time, waker: Waker, result: PollResult)
    | Renew                                                  // a fresh future takes over

  /** The queue with its current future, the clock, and everything pushed and delivered so far. */
  datatype Flow = Flow(poll: PollState, now: Time, pushed: seq<Item>, delivered: seq<Item>)

  const NEW_FLOW := Flow(PollState(multiset{}, None, []), 0, [], [])

  ghost predicate Next(a: Flow, e: Event, b: Flow) {
    match e
    case Push(item) =>
      && a.now <= item.sent
      && b == a.(poll := PollState(a.poll.queue + multiset{item}, a.poll.sleep, []), now := item.sent,
                 pushed := a.pushed + [item])
    case Poll(max, now, waker, result) =>
      && a.now <= now
      && Polled(a.poll, max, now, waker, b.poll, result)
      && b.now == now && b.pushed == a.pushed
      && b.delivered == a.delivered + if result.Ready? then result.batch else []
    case Renew => b == a.(poll := a.poll.(sleep := None))
  }

  /** `flows` goes through `events` one by one, from a new queue. */
  ghost predicate History(flows: seq<Flow>, events: seq<Event>) {
    && |flows| == |events| + 1
    && flows[0] == NEW_FLOW
    && forall i :: 0 <= i < |events| ==> Next(flows[i], events[i], flows[i + 1])
  }

  predicate ByArrival(items: seq<Item>) {
    forall i, j :: 0 <= i < j < |items| ==> items[i].Arrival() <= items[j].Arrival()
  }

  ghost predicate InOrder(f: Flow) {
    && multiset(f.pushed) == multiset(f.delivered) + f.poll.queue
    && ByArrival(f.delivered)
    && (forall x :: x in f.delivered ==> x.Arrival() <= f.now)
    && (forall x, y :: x in f.delivered && y in f.poll.queue ==> x.Arrival() <= y.Arrival())
  }

  lemma PushKeepsOrder(a: Flow, item: Item, b: Flow)
    requires InOrder(a) && Next(a, Push(item), b)
    ensures InOrder(b)
  {
  }

  lemma ByArrivalConcat(a: seq<Item>, b: seq<Item>)
    requires ByArrival(a) && ByArrival(b) && forall x, y :: x in a && y in b ==> x.Arrival() <= y.Arrival()
    ensures ByArrival(a + b)
  {
    forall i, j | 0 <= i < |a| && 0 <= j < |b|
      ensures a[i].Arrival() <= b[j].Arrival()
    {
      assert a[i] in a && b[j] in b;
    }
  }

  lemma BatchComesFrom(queue: multiset<Item>, batch: seq<Item>, rest: multiset<Item>)
    requires TakesFirst(queue, batch, rest)
    ensures forall x :: x in batch || x in rest ==> x in queue
    ensures ByArrival(batch) && forall x, y :: x in batch && y in rest ==> x.Arrival() <= y.Arrival()
  {
  }

  lemma BatchKeepsOrder(a: Flow, max: nat, now: Time, batch: seq<Item>, b: Flow)
    requires InOrder(a) && a.now <= now == b.now && TakesDue(a.poll, max, now, b.poll, batch)
    requires b.pushed == a.pushed && b.delivered == a.delivered + batch
    ensures InOrder(b)
  {
    BatchComesFrom(a.poll.queue, batch, b.poll.queue);
    ByArrivalConcat(a.delivered, batch);
    hide ByArrival;
  }

  lemma NextKeepsOrder(a: Flow, e: Event, b: Flow)
    requires InOrder(a) && Next(a, e, b)
    ensures InOrder(b)
  {
    match e
    case Push(item) => PushKeepsOrder(a, item, b);
    case Renew =>
    case Poll(max, now, waker, result) =>
      if max != 0 && (a.poll.sleep.Some? ==> a.poll.sleep.value <= now) {
        hide InOrder, TakesDue;
        BatchKeepsOrder(a, max, now, if result.Ready? then result.batch else [], b);
      } else {
        assert b.delivered == a.delivered;
      }
  }

  lemma HistoryPrefix(flows: seq<Flow>, events: seq<Event>)
    requires History(flows, events) && events != []
    ensures History(flows[..|events|], events[..|events| - 1])
    ensures Next(flows[|events| - 1], events[|events| - 1], flows[|events|])
  {
    var k := |events| - 1;
    forall i | 0 <= i < k
      ensures Next(flows[..|events|][i], events[..k][i], flows[..|events|][i + 1])
    {
      assert Next(flows[i], events[i], flows[i + 1]);
    }
  }

  /**
   * Over any sends and polls, with a clock that never runs backwards and whatever delays: what is
   * delivered, over all batches together, comes in order of arrival time and never early, and
   * together with what is still queued it is exactly what was sent.
   */
  lemma {:induction false} DeliveriesInOrder(flows: seq<Flow>, events: seq<Event>)
    requires History(flows, events)
    ensures InOrder(flows[|events|])
    decreases |events|
  {
    hide InOrder, Next;
    if events == [] {
      NewFlowInOrder();
    } else {
      HistoryPrefix(flows, events);
      DeliveriesInOrder(flows[..|events|], events[..|events| - 1]);
      NextKeepsOrder(flows[|events| - 1], events[|events| - 1], flows[|events|]);
    }
  }

  lemma NewFlowInOrder()
    ensures InOrder(NEW_FLOW)
  {
  }

  /**
   * What one poll delivers is due, and comes before everything that it leaves in the queue: by the
   * time at which its delay after its sending is over, and by packet number if that is the same.
   */
  lemma BatchesInOrder(a: PollState, max: nat, now: Time, waker: Waker, b: PollState, batch: seq<Item>)
    requires Polled(a, max, now, waker, b, Ready(batch))
    ensures 0 < |batch| <= max && a.queue == multiset(batch) + b.queue
    ensures forall x :: x in batch ==> x.sent + x.delay <= now
    ensures forall i, j :: 0 <= i < j < |batch| ==>
      var x, y := batch[i], batch[j];
      x.sent + x.delay < y.sent + y.delay || (x.sent + x.delay == y.sent + y.delay && x.number <= y.number)
    ensures forall x, y :: x in batch && y in b.queue ==>
      x.sent + x.delay < y.sent + y.delay || (x.sent + x.delay == y.sent + y.delay && x.number <= y.number)
    ensures |batch| < max ==> forall y :: y in b.queue ==> now < y.sent + y.delay
  {
  }

  // ----- Punctuality -----

  /** A packet whose time has come is still in the queue. */
  predicate LeavesDue(p: PollState, now: Time) {
    exists x :: x in p.queue && x.Arrival() <= now
  }

  /**
   * A poll without a result leaves a due packet behind exactly if a timer set earlier is still
   * running while a packet that came in since is already due. And it always leaves something
   * that will wake the caller: its waker in the queue, or a timer.
   */
  lemma PendingLeavesDueIff(a: PollState, max: nat, now: Time, waker: Waker, b: PollState)
    requires max > 0 && Polled(a, max, now, waker, b, Pending)
    ensures LeavesDue(b, now) <==> a.sleep.Some? && now < a.sleep.value && LeavesDue(a, now)
    ensures waker in b.wakers || (b.sleep.Some? && now < b.sleep.value)
  {
  }

  /** It does happen: a slow packet sets the timer, and a faster one sent later is overlooked. */
  lemma FasterPacketOverlooked() returns (flows: seq<Flow>, events: seq<Event>)
    ensures History(flows, events)
    ensures |events| == 4 && events[3].Poll? && events[3].max > 0 && events[3].result.Pending?
    ensures LeavesDue(flows[4].poll, flows[4].now)
  {
    var slow, fast := Item(0, 0, 0, 10), Item(1, 1, 1, 2);
    var q1, q2 := multiset{slow}, multiset{slow, fast};
    events := [Push(slow), Poll(1, 0, 0, Pending), Push(fast), Poll(1, 5, 0, Pending)];
    flows := [NEW_FLOW,
              Flow(PollState(q1, None, []), 0, [slow], []),
              Flow(PollState(q1, Some(10), []), 0, [slow], []),
              Flow(PollState(q2, Some(10), []), 1, [slow, fast], []),
              Flow(PollState(q2, Some(10), []), 5, [slow, fast], [])];
    assert IsFirst(q1, slow);
    assert TakesFirst(q1, [], q1);
    assert Next(flows[0], events[0], flows[1]);
    assert Next(flows[1], events[1], flows[2]);
    assert Next(flows[2], events[2], flows[3]);
    assert Next(flows[3], events[3], flows[4]);
    assert fast in q2;
  }

  predicate Steady(events: seq<Event>, delay: Time) {
    forall e :: e in events && e.Push? ==> e.item.delay == delay
  }

  /** With one delay for all, a running timer never outlasts a queued packet. */
  ghost predicate TimerIsFirst(f: Flow, delay: Time) {
    && (forall x :: x in f.poll.queue ==> x.sent <= f.now && x.delay == delay)
    && (f.poll.sleep.Some? ==>
          f.poll.sleep.value <= f.now + delay
          && forall x :: x in f.poll.queue ==> f.poll.sleep.value <= x.Arrival())
  }

  lemma NextKeepsTimer(a: Flow, e: Event, b: Flow, delay: Time)
    requires TimerIsFirst(a, delay) && Next(a, e, b) && Steady([e], delay)
    ensures TimerIsFirst(b, delay)
  {
    if e.Push? {
      assert e in [e];
    } else if e.Poll? && e.max != 0 && (a.poll.sleep.Some? ==> a.poll.sleep.value <= e.now) {
      forall x | x in b.poll.queue
        ensures x in a.poll.queue
      {
      }
    }
  }

  lemma {:induction false} TimersAreFirst(flows: seq<Flow>, events: seq<Event>, delay: Time)
    requires History(flows, events) && Steady(events, delay)
    ensures TimerIsFirst(flows[|events|], delay)
    decreases |events|
  {
    hide Next;
    if events != [] {
      hide TimerIsFirst;
      HistoryPrefix(flows, events);
      TimersAreFirst(flows[..|events|], events[..|events| - 1], delay);
      NextKeepsTimer(flows[|events| - 1], events[|events| - 1], flows[|events|], delay);
    }
  }

  /** The last event is a poll without a result. */
  predicate EndsPending(events: seq<Event>) {
    events != [] && var e := events[|events| - 1]; e.Poll? && e.max > 0 && e.result.Pending?
  }

  /** On a link whose packets all take equally long, no poll without a result leaves a due packet behind. */
  lemma SteadyLinksArePunctual(flows: seq<Flow>, events: seq<Event>, delay: Time)
    requires History(flows, events) && Steady(events, delay)
    requires EndsPending(events)
    ensures !LeavesDue(flows[|events|].poll, flows[|events|].now)
  {
    var k := |events| - 1;
    var e := events[k];
    HistoryPrefix(flows, events);
    TimersAreFirst(flows[..|events|], events[..k], delay);
    PendingLeavesDueIff(flows[k].poll, e.max, e.now, e.waker, flows[|events|].poll);
  }

  // ----- First in, first out -----

  /** The packets are pushed one after the other, never two at the same instant. */
  predicate Spaced(items: seq<Item>) {
    forall i, j :: 0 <= i < j < |items| ==> items[i].sent < items[j].sent
  }

  /** What is delivered is the beginning of what was pushed, and the queue holds the rest. */
  ghost predicate Fifo(f: Flow) {
    f.delivered <= f.pushed && f.poll.queue == multiset(f.pushed[|f.delivered|..])
  }

  predicate Increasing(items: seq<Item>) {
    forall i, j :: 0 <= i < j < |items| ==> items[i].Arrival() < items[j].Arrival()
  }

  lemma CancelFirst(x: Item, a: multiset<Item>, b: multiset<Item>)
    requires multiset{x} + a == multiset{x} + b
    ensures a == b
  {
    assert a == (multiset{x} + a) - multiset{x};
    assert b == (multiset{x} + b) - multiset{x};
  }

  lemma FirstOfBatch(items: seq<Item>, batch: seq<Item>, rest: multiset<Item>)
    requires Increasing(items) && TakesFirst(multiset(items), batch, rest) && batch != []
    ensures items != [] && batch[0] == items[0]
    ensures Increasing(items[1..]) && TakesFirst(multiset(items[1..]), batch[1..], rest)
  {
    var x := batch[0];
    assert x in multiset(items);
    var first := items[0];
    assert first in multiset(batch) + rest;
    assert first in batch || first in rest;
    assert NotAfter(x, first);
    assert x == first;
    assert items == [x] + items[1..];
    assert batch == [x] + batch[1..];
    CancelFirst(x, multiset(items[1..]), multiset(batch[1..]) + rest);
  }

  lemma PrefixExtends(items: seq<Item>, batch: seq<Item>)
    requires items != [] && batch != [] && batch[0] == items[0] && batch[1..] <= items[1..]
    ensures batch <= items && items[1..][|batch| - 1..] == items[|batch|..]
  {
    assert items == [items[0]] + items[1..] && batch == [batch[0]] + batch[1..];
  }

  lemma {:induction false} BatchIsPrefix(items: seq<Item>, batch: seq<Item>, rest: multiset<Item>)
    requires Increasing(items) && TakesFirst(multiset(items), batch, rest)
    ensures batch <= items && rest == multiset(items[|batch|..])
  {
    if batch == [] {
      assert items[0..] == items;
    } else {
      FirstOfBatch(items, batch, rest);
      hide Increasing, TakesFirst;
      BatchIsPrefix(items[1..], batch[1..], rest);
      PrefixExtends(items, batch);
    }
  }

  lemma BatchKeepsFifo(a: Flow, batch: seq<Item>, b: Flow)
    requires Fifo(a) && Increasing(a.pushed) && TakesFirst(a.poll.queue, batch, b.poll.queue)
    requires b.pushed == a.pushed && b.delivered == a.delivered + batch
    ensures Fifo(b)
  {
    hide TakesFirst;
    var rest := a.pushed[|a.delivered|..];
    assert Increasing(rest);
    BatchIsPrefix(rest, batch, b.poll.queue);
    hide Increasing;
    assert rest[|batch|..] == a.pushed[|b.delivered|..];
    assert a.pushed == a.delivered + rest;
  }

  lemma NextKeepsFifo(a: Flow, e: Event, b: Flow)
    requires Fifo(a) && Increasing(a.pushed) && Next(a, e, b)
    ensures Fifo(b)
  {
    match e
    case Push(item) =>
      assert b.pushed[|b.delivered|..] == a.pushed[|a.delivered|..] + [item];
    case Renew =>
    case Poll(max, now, waker, result) =>
      if max != 0 && (a.poll.sleep.Some? ==> a.poll.sleep.value <= now) {
        hide Fifo, TakesFirst;
        BatchKeepsFifo(a, if result.Ready? then result.batch else [], b);
      } else {
        assert b.delivered == a.delivered;
      }
  }

  lemma {:induction false} PushedAreSteady(flows: seq<Flow>, events: seq<Event>, delay: Time)
    requires History(flows, events) && Steady(events, delay)
    ensures forall x :: x in flows[|events|].pushed ==> x.delay == delay
    decreases |events|
  {
    hide Polled;
    if events != [] {
      HistoryPrefix(flows, events);
      PushedAreSteady(flows[..|events|], events[..|events| - 1], delay);
    }
  }

  lemma PushedGrow(a: Flow, e: Event, b: Flow)
    requires Next(a, e, b)
    ensures a.pushed <= b.pushed
  {
    hide Polled;
  }

  lemma {:induction false} SteadyAsPushed(flows: seq<Flow>, events: seq<Event>, delay: Time)
    requires History(flows, events) && forall x :: x in flows[|events|].pushed ==> x.delay == delay
    ensures Steady(events, delay)
    decreases |events|
  {
    hide Polled;
    if events != [] {
      var k := |events| - 1;
      HistoryPrefix(flows, events);
      PushedGrow(flows[k], events[k], flows[|events|]);
      SteadyAsPushed(flows[..|events|], events[..k], delay);
      if events[k].Push? {
        assert flows[|events|].pushed == flows[k].pushed + [events[k].item];
      }
      assert events == events[..k] + [events[k]];
    }
  }

  /**
   * A link whose packets all take equally long, and that sends one at a time, is first in, first
   * out: whatever was delivered so far is the beginning of what was sent.
   */
  lemma {:induction false} SteadyLinksAreFifo(flows: seq<Flow>, events: seq<Event>, delay: Time)
    requires History(flows, events) && Steady(events, delay) && Spaced(flows[|events|].pushed)
    ensures Fifo(flows[|events|])
    decreases |events|
  {
    hide Next;
    if events != [] {
      hide Fifo;
      var k := |events| - 1;
      HistoryPrefix(flows, events);
      PushedGrow(flows[k], events[k], flows[|events|]);
      SteadyLinksAreFifo(flows[..|events|], events[..k], delay);
      PushedAreSteady(flows[..|events|], events[..k], delay);
      NextKeepsFifo(flows[k], events[k], flows[|events|]);
    }
  }

  // ----- The pacer does send one at a time -----

  predicate NonEmpty(sends: seq<Pacing.Packet>) {
    forall i :: 0 <= i < |sends| ==> sends[i].sizeBytes > 0
  }

  lemma TakesSomeTime(sizeBytes: nat, bandwidthBps: nat)
    requires bandwidthBps > 0 && sizeBytes > 0
    ensures Pacing.SendDuration(sizeBytes, bandwidthBps) > 0
  {
  }

  /** Sends that the pacer allows are at strictly increasing times, as no packet is empty. */
  lemma {:induction false} PacedSendsAreSpaced(sends: seq<Pacing.Packet>, bandwidthBps: nat)
    requires bandwidthBps > 0 && NonEmpty(sends) && Pacing.PacerAfter(sends, bandwidthBps).Some?
    ensures forall i, j :: 0 <= i < j < |sends| ==> sends[i].time < sends[j].time
    ensures forall i :: 0 <= i < |sends| ==>
      Pacing.PacerAfter(sends, bandwidthBps).value.Some?
      && sends[i].time < Pacing.PacerAfter(sends, bandwidthBps).value.value
  {
    if sends != [] {
      var last := sends[|sends| - 1];
      PacedSendsAreSpaced(sends[..|sends| - 1], bandwidthBps);
      TakesSomeTime(last.sizeBytes, bandwidthBps);
    }
  }
}
