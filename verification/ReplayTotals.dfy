/** What the counters kept by the verifier add up to, over whole traces. */
module ReplayTotals {
  import opened Types
  import opened BandwidthWindow
  import opened NodeReplay
  import opened Replay

  /** How the last step of a replayed trace was taken. */
  lemma LastStep(meta: Meta, order: seq<NodeId>, trace: seq<Step>)
    requires ValidOrder(meta, order) && TimeSorted(trace) && trace != [] && ReplayTrace(meta, order, trace).Running?
    ensures var init, step := trace[..|trace| - 1], trace[|trace| - 1];
      && ReplayTrace(meta, order, init).Running?
      && var st := ReplayTrace(meta, order, init).st;
         && WellFormed(meta, st) && st.lastStepTime <= step.time
         && var st1 := AdvanceTo(meta, order, st, step.time);
            && WellFormed(meta, st1) && st1.lastStepTime == step.time
            && ReplayTrace(meta, order, trace) == ApplyStep(meta, st1, step.time, step.kind)
  {
    hide WellFormed, AdvanceTo, ApplyStep, ValidOrder;
  }

  // ----- Bytes in and out of a node -----

  function CreatedBy(st: ReplayState, k: StepKind, n: NodeId): nat {
    if k.PacketInNode? && k.node == n && k.packet !in st.inFlight then k.size else 0
  }

  function DeliveredBy(st: ReplayState, k: StepKind, n: NodeId): nat {
    if k.PacketDeliveredToApplication? && k.node == n && n in st.nodes && k.packet in st.nodes[n].packets
    then st.nodes[n].packets[k.packet].size else 0
  }

  /** Bytes of the packets that the trace lets originate in a node. */
  ghost function CreatedBytes(meta: Meta, order: seq<NodeId>, trace: seq<Step>, n: NodeId): nat
    requires ValidOrder(meta, order) && TimeSorted(trace)
  {
    if trace == [] then 0
    else
      var init := trace[..|trace| - 1];
      var o := ReplayTrace(meta, order, init);
      CreatedBytes(meta, order, init, n) + if o.Running? then CreatedBy(o.st, trace[|trace| - 1].kind, n) else 0
  }

  /** Bytes of the packets that applications read in a node. */
  ghost function DeliveredBytes(meta: Meta, order: seq<NodeId>, trace: seq<Step>, n: NodeId): nat
    requires ValidOrder(meta, order) && TimeSorted(trace)
  {
    if trace == [] then 0
    else
      var init := trace[..|trace| - 1];
      var o := ReplayTrace(meta, order, init);
      DeliveredBytes(meta, order, init, n) + if o.Running? then DeliveredBy(o.st, trace[|trace| - 1].kind, n) else 0
  }

  /** What came in, less what was turned away, went out or is still there. */
  predicate Balanced(n: NodeView, created: nat, delivered: nat) {
    created + n.received.bytes + n.duplicated.bytes
    == n.droppedDown.bytes + n.bufferUsage + n.sent.bytes + delivered
       + n.droppedInjected.bytes + n.droppedBufferFull.bytes + n.droppedBufferCleared.bytes
  }

  lemma CallsKeepBalance(n: NodeView, self: NodeId, id: PacketId, number: nat, size: nat, dropped: bool,
                         reason: DropReason, now: Time, created: nat, delivered: nat)
    requires Tallied(n) && Balanced(n, created, delivered)
    ensures var r := Created(n, self, id, size, now); r.NodeOk? ==> Balanced(r.node, created + size, delivered)
    ensures var r := Received(n, self, id, number, size, dropped, now);
      r.NodeOk? ==> Balanced(r.node, created, delivered)
    ensures var r := Duplicated(n, self, id, size, now); r.NodeOk? ==> Balanced(r.node, created, delivered)
    ensures var r := Sent(n, self, id); r.NodeOk? ==> Balanced(r.node, created, delivered)
    ensures var r := Delivered(n, id); r.NodeOk? ==> Balanced(r.node, created, delivered + n.packets[id].size)
    ensures var r := Dropped(n, id, reason); r.NodeOk? ==> Balanced(r.node, created, delivered)
  {
    hide SumSizes, Tallied;
  }

  ghost predicate BalancedAt(o: Outcome, n: NodeId, created: nat, delivered: nat) {
    o.Running? && n in o.st.nodes ==> Balanced(o.st.nodes[n], created, delivered)
  }

  lemma NodeStepKeepsBalance(view: NodeView, t: Time, k: StepKind, n: NodeId, created: nat, delivered: nat)
    requires IsNodeStep(k) && k.node == n && Tallied(view) && Balanced(view, created, delivered)
    ensures var r := NodeStep(view, t, k);
      r.NodeOk? ==> Balanced(r.node, created, delivered
        + if k.PacketDeliveredToApplication? && k.packet in view.packets then view.packets[k.packet].size else 0)
  {
    CallsKeepBalance(view, n, k.packet, 0, if k.PacketDuplicated? then k.size else 0, false,
                     if k.PacketDropped? then k.reason else Random, t, created, delivered);
    hide Duplicated, Dropped, Delivered, Tallied, Balanced;
    if k.PacketExtraDelay? || k.PacketCongestionEvent? {
      OtherCallsKeepBalance(view, t, k, created, delivered);
    }
  }

  lemma OtherCallsKeepBalance(view: NodeView, t: Time, k: StepKind, created: nat, delivered: nat)
    requires (k.PacketExtraDelay? || k.PacketCongestionEvent?) && Tallied(view) && Balanced(view, created, delivered)
    ensures var r := NodeStep(view, t, k); r.NodeOk? ==> Balanced(r.node, created, delivered)
  {
    hide SumSizes, Tallied;
  }

  lemma StepKeepsBalance(meta: Meta, st: ReplayState, t: Time, k: StepKind, n: NodeId, created: nat, delivered: nat)
    requires WellFormed(meta, st) && st.lastStepTime == t && BalancedAt(Running(st), n, created, delivered)
    ensures BalancedAt(ApplyStep(meta, st, t, k), n, created + CreatedBy(st, k, n), delivered + DeliveredBy(st, k, n))
  {
    hide Balanced, Tallied, SumBits, Created, Received, Sent, NodeStep, ArrivalErrors, PacketSent, UsedBps;
    if (k.PacketInNode? || k.PacketInTransit? || IsNodeStep(k)) && k.node == n && n in st.nodes {
      var view := st.nodes[n];
      if IsNodeStep(k) {
        NodeStepKeepsBalance(view, t, k, n, created, delivered);
      } else if k.PacketInNode? {
        CallsKeepBalance(view, n, k.packet, k.number, k.size, k.droppedOnArrival, Random, t, created, delivered);
      } else {
        CallsKeepBalance(view, n, k.packet, 0, 0, false, Random, t, created, delivered);
      }
    } else if k.NetworkEvent? {
      EventKeepsBalance(st, t, k, n, created, delivered);
    }
  }

  lemma EventKeepsBalance(st: ReplayState, t: Time, k: StepKind, n: NodeId, created: nat, delivered: nat)
    requires k.NetworkEvent? && BalancedAt(Running(st), n, created, delivered)
    ensures BalancedAt(StepEvent(st, t, k), n, created, delivered)
  {
  }

  lemma AdvanceKeepsBalance(meta: Meta, order: seq<NodeId>, st: ReplayState, t: Time, n: NodeId, created: nat,
                            delivered: nat)
    requires ValidOrder(meta, order) && WellFormed(meta, st) && st.lastStepTime <= t
    requires BalancedAt(Running(st), n, created, delivered)
    ensures BalancedAt(Running(AdvanceTo(meta, order, st, t)), n, created, delivered)
    ensures forall k :: CreatedBy(AdvanceTo(meta, order, st, t), k, n) == CreatedBy(st, k, n)
    ensures forall k :: DeliveredBy(AdvanceTo(meta, order, st, t), k, n) == DeliveredBy(st, k, n)
  {
    hide SumBits, SumSizes, UpdateMaxBufferUsage;
  }

  lemma StartsBalanced(meta: Meta, n: NodeId)
    ensures BalancedAt(Running(InitialState(meta)), n, 0, 0)
  {
  }

  lemma {:induction false} BytesStayBalanced(meta: Meta, order: seq<NodeId>, trace: seq<Step>, n: NodeId)
    requires ValidOrder(meta, order) && TimeSorted(trace) && ReplayTrace(meta, order, trace).Running?
    ensures BalancedAt(ReplayTrace(meta, order, trace), n,
                       CreatedBytes(meta, order, trace, n), DeliveredBytes(meta, order, trace, n))
  {
    hide WellFormed, AdvanceTo, ApplyStep, BalancedAt, CreatedBy, DeliveredBy, ValidOrder, InitialState;
    if trace == [] {
      StartsBalanced(meta, n);
    } else {
      LastStep(meta, order, trace);
      hide ReplayTrace;
      var init, step := trace[..|trace| - 1], trace[|trace| - 1];
      BytesStayBalanced(meta, order, init, n);
      var st := ReplayTrace(meta, order, init).st;
      var created, delivered := CreatedBytes(meta, order, init, n), DeliveredBytes(meta, order, init, n);
      AdvanceKeepsBalance(meta, order, st, step.time, n, created, delivered);
      StepKeepsBalance(meta, AdvanceTo(meta, order, st, step.time), step.time, step.kind, n, created, delivered);
    }
  }

  /**
   * On every replayed trace, whoever emitted it: the bytes that were created, received or
   * duplicated in a node, but for what was dropped on arrival, are those it holds and those that
   * were sent on, read, dropped at random, dropped for lack of space, and wiped by buffer clears.
   */
  lemma NodeBytesBalance(meta: Meta, order: seq<NodeId>, trace: seq<Step>, n: NodeId)
    requires ValidOrder(meta, order) && TimeSorted(trace) && n in meta.bufferSizes
    requires ReplayTrace(meta, order, trace).Running?
    ensures n in ReplayTrace(meta, order, trace).st.nodes
    ensures Tallied(ReplayTrace(meta, order, trace).st.nodes[n])
    ensures Balanced(ReplayTrace(meta, order, trace).st.nodes[n],
                     CreatedBytes(meta, order, trace, n), DeliveredBytes(meta, order, trace, n))
  {
    hide WellFormed, Balanced, Tallied, ValidOrder, ReplayTrace, CreatedBytes, DeliveredBytes;
    BytesStayBalanced(meta, order, trace, n);
    HoldsNode(meta, ReplayTrace(meta, order, trace).st, n);
  }

  lemma HoldsNode(meta: Meta, st: ReplayState, n: NodeId)
    requires WellFormed(meta, st) && n in meta.bufferSizes
    ensures n in st.nodes && Tallied(st.nodes[n])
  {
    hide SumSizes, SumBits;
  }

  // ----- Bandwidth -----

  /** The send over link `l` that a step makes, if it makes one. */
  function SendBy(st: ReplayState, t: Time, k: StepKind, l: LinkId): seq<Send> {
    if k.PacketInTransit? && k.link == l && k.node in st.nodes && k.packet in st.nodes[k.node].packets
    then [Send(t, st.nodes[k.node].packets[k.packet].size * 8)] else []
  }

  /** All the sends over a link, one after the other. */
  ghost function SendsOver(meta: Meta, order: seq<NodeId>, trace: seq<Step>, l: LinkId): seq<Send>
    requires ValidOrder(meta, order) && TimeSorted(trace)
  {
    if trace == [] then []
    else
      var init, step := trace[..|trace| - 1], trace[|trace| - 1];
      var o := ReplayTrace(meta, order, init);
      SendsOver(meta, order, init, l) + if o.Running? then SendBy(o.st, step.time, step.kind, l) else []
  }

  /** The link's window and maximum are those after the given sends; its status is another matter. */
  ghost predicate SentOver(meta: Meta, links: map<LinkId, LinkView>, l: LinkId, sends: seq<Send>) {
    && l in meta.links && l in links
    && var after := AfterSends(sends, meta.links[l].bandwidthBps);
       links[l].window == after.window && links[l].usageBits == after.usageBits && links[l].maxBps == after.maxBps
  }

  lemma AdvanceKeepsSends(meta: Meta, order: seq<NodeId>, st: ReplayState, t: Time, l: LinkId)
    requires ValidOrder(meta, order) && WellFormed(meta, st) && st.lastStepTime <= t
    ensures AdvanceTo(meta, order, st, t).links == st.links
    ensures forall k :: SendBy(AdvanceTo(meta, order, st, t), t, k, l) == SendBy(st, t, k, l)
  {
  }

  lemma RecordAfterSends(view: LinkView, sends: seq<Send>, send: Send, bandwidthBps: nat)
    requires var after := AfterSends(sends, bandwidthBps);
      view.window == after.window && view.usageBits == after.usageBits && view.maxBps == after.maxBps
    ensures var after, view1 := AfterSends(sends + [send], bandwidthBps), RecordSend(view, send, bandwidthBps);
      view1.window == after.window && view1.usageBits == after.usageBits && view1.maxBps == after.maxBps
  {
    assert (sends + [send])[..|sends + [send]| - 1] == sends;
    hide Expire, SumBits;
  }

  lemma StepKeepsSends(meta: Meta, st: ReplayState, t: Time, k: StepKind, l: LinkId, sends: seq<Send>)
    requires WellFormed(meta, st) && st.lastStepTime == t && SentOver(meta, st.links, l, sends)
    requires ApplyStep(meta, st, t, k).Running?
    ensures SentOver(meta, ApplyStep(meta, st, t, k).st.links, l, sends + SendBy(st, t, k, l))
  {
    hide Tallied, SumBits, Created, Received, RecordSend, AfterSends, NodeStep, ArrivalErrors, UsedBps;
    if k.PacketInTransit? && k.link == l {
      var send := Send(t, st.nodes[k.node].packets[k.packet].size * 8);
      RecordAfterSends(st.links[l], sends, send, meta.links[l].bandwidthBps);
    } else {
      assert sends + [] == sends;
    }
  }

  lemma {:induction false} LinkSeesSends(meta: Meta, order: seq<NodeId>, trace: seq<Step>, l: LinkId)
    requires ValidOrder(meta, order) && TimeSorted(trace) && l in meta.links
    requires ReplayTrace(meta, order, trace).Running?
    ensures SentOver(meta, ReplayTrace(meta, order, trace).st.links, l, SendsOver(meta, order, trace, l))
  {
    if trace != [] {
      LastStep(meta, order, trace);
      hide WellFormed, AdvanceTo, ApplyStep, ValidOrder, SentOver, SendBy, ReplayTrace;
      var init, step := trace[..|trace| - 1], trace[|trace| - 1];
      LinkSeesSends(meta, order, init, l);
      var st := ReplayTrace(meta, order, init).st;
      AdvanceKeepsSends(meta, order, st, step.time, l);
      var st1 := AdvanceTo(meta, order, st, step.time);
      StepKeepsSends(meta, st1, step.time, step.kind, l, SendsOver(meta, order, init, l));
    }
  }

  lemma {:induction false} SendsInOrder(meta: Meta, order: seq<NodeId>, trace: seq<Step>, l: LinkId)
    requires ValidOrder(meta, order) && TimeSorted(trace)
    ensures SendsSorted(SendsOver(meta, order, trace, l))
    ensures forall s :: s in SendsOver(meta, order, trace, l) ==> s.time <= LastTime(trace)
  {
    hide ReplayTrace;
    if trace != [] {
      var init, step := trace[..|trace| - 1], trace[|trace| - 1];
      var sends := SendsOver(meta, order, init, l);
      SendsInOrder(meta, order, init, l);
      forall i | 0 <= i < |sends|
        ensures sends[i].time <= step.time
      {
        assert sends[i] in sends;
      }
    }
  }

  /**
   * On every replayed trace, the maximum bandwidth that the verifier reports for a link is the
   * largest, over all its sends, of the bits sent over it in the window up to that send: as if all
   * its sends were added up anew each time.
   */
  lemma ReportedBandwidthIsMaximum(meta: Meta, order: seq<NodeId>, trace: seq<Step>, l: LinkId)
    requires ValidOrder(meta, order) && TimeSorted(trace) && l in meta.links
    requires ReplayTrace(meta, order, trace).Running? && SendsOver(meta, order, trace, l) != []
    ensures l in ReplayTrace(meta, order, trace).st.links
    ensures IsMaxUsage(SendsOver(meta, order, trace, l), meta.links[l].bandwidthBps,
                       ReplayTrace(meta, order, trace).st.links[l].maxBps)
  {
    hide IsMaxUsage, AfterSends, ReplayTrace, SendsOver;
    LinkSeesSends(meta, order, trace, l);
    SendsInOrder(meta, order, trace, l);
    MaxUsageIsMaximum(SendsOver(meta, order, trace, l), meta.links[l].bandwidthBps);
  }

  // ----- Packets received out of order -----

  datatype Receipt = Receipt(number: nat, size: nat)

  function ReceivedBy(st: ReplayState, k: StepKind, n: NodeId): seq<Receipt> {
    if k.PacketInNode? && k.node == n && k.packet in st.inFlight then [Receipt(k.number, k.size)] else []
  }

  /** The packets that came off links into a node, one after the other. */
  ghost function Receipts(meta: Meta, order: seq<NodeId>, trace: seq<Step>, n: NodeId): seq<Receipt>
    requires ValidOrder(meta, order) && TimeSorted(trace)
  {
    if trace == [] then []
    else
      var init := trace[..|trace| - 1];
      var o := ReplayTrace(meta, order, init);
      Receipts(meta, order, init, n) + if o.Running? then ReceivedBy(o.st, trace[|trace| - 1].kind, n) else []
  }

  /** A packet with a larger number was received before. */
  predicate OvertakenBy(before: seq<Receipt>, number: nat) {
    exists j :: 0 <= j < |before| && number < before[j].number
  }

  /** The receipts that came after one with a larger number. */
  function Overtaken(receipts: seq<Receipt>): seq<Receipt> {
    if receipts == [] then []
    else
      var init, last := receipts[..|receipts| - 1], receipts[|receipts| - 1];
      Overtaken(init) + if OvertakenBy(init, last.number) then [last] else []
  }

  function SumReceived(receipts: seq<Receipt>): nat {
    if receipts == [] then 0 else SumReceived(receipts[..|receipts| - 1]) + receipts[|receipts| - 1].size
  }

  predicate IsLargest(receipts: seq<Receipt>, largest: nat) {
    && (forall j :: 0 <= j < |receipts| ==> receipts[j].number <= largest)
    && (largest == 0 || exists j :: 0 <= j < |receipts| && receipts[j].number == largest)
  }

  /** The counters stand for these packets: how many, and how many bytes. */
  predicate Counts(stats: PacketStats, receipts: seq<Receipt>) {
    stats == PacketStats(|receipts|, SumReceived(receipts))
  }

  predicate CountsReceived(view: NodeView, receipts: seq<Receipt>) {
    && Counts(view.received, receipts)
    && IsLargest(receipts, view.highestReceived)
    && Counts(view.reordered, Overtaken(receipts))
  }

  lemma OvertakenIff(receipts: seq<Receipt>, largest: nat, number: nat)
    requires IsLargest(receipts, largest)
    ensures OvertakenBy(receipts, number) <==> number < largest
  {
  }

  lemma OneMoreCounted(stats: PacketStats, receipts: seq<Receipt>, r: Receipt)
    requires Counts(stats, receipts)
    ensures Counts(stats.TrackOne(r.size), receipts + [r])
  {
    assert (receipts + [r])[..|receipts|] == receipts;
  }

  lemma LargestOfMore(receipts: seq<Receipt>, largest: nat, r: Receipt)
    requires IsLargest(receipts, largest)
    ensures IsLargest(receipts + [r], Max(largest, r.number))
  {
    var all := receipts + [r];
    assert all[|receipts|] == r;
    if largest != 0 {
      var j :| 0 <= j < |receipts| && receipts[j].number == largest;
      assert all[j].number == largest;
    }
  }

  lemma OvertakenSnoc(receipts: seq<Receipt>, r: Receipt)
    ensures Overtaken(receipts + [r]) == Overtaken(receipts) + if OvertakenBy(receipts, r.number) then [r] else []
  {
    assert (receipts + [r])[..|receipts|] == receipts;
  }

  lemma ReceiptCounts(view: NodeView, receipts: seq<Receipt>, self: NodeId, id: PacketId, number: nat, size: nat,
                      dropped: bool, now: Time)
    requires CountsReceived(view, receipts)
    ensures var r := Received(view, self, id, number, size, dropped, now);
      r.NodeOk? ==> CountsReceived(r.node, receipts + [Receipt(number, size)])
  {
    var r := Receipt(number, size);
    OvertakenIff(receipts, view.highestReceived, number);
    OneMoreCounted(view.received, receipts, r);
    LargestOfMore(receipts, view.highestReceived, r);
    OvertakenSnoc(receipts, r);
    OneMoreCounted(view.reordered, Overtaken(receipts), r);
    assert Overtaken(receipts) + [] == Overtaken(receipts);
    hide IsLargest, Counts, Overtaken, OvertakenBy;
  }

  /** Other calls leave these counters alone. */
  predicate SameReceived(a: NodeView, b: NodeView) {
    a.received == b.received && a.highestReceived == b.highestReceived && a.reordered == b.reordered
  }

  lemma OthersCountNothing(view: NodeView, t: Time, k: StepKind)
    requires Tallied(view)
    ensures k.PacketInNode? ==>
      var r := Created(view, k.node, k.packet, k.size, t); r.NodeOk? ==> SameReceived(r.node, view)
    ensures k.PacketInTransit? ==> var r := Sent(view, k.node, k.packet); r.NodeOk? ==> SameReceived(r.node, view)
    ensures IsNodeStep(k) ==> var r := NodeStep(view, t, k); r.NodeOk? ==> SameReceived(r.node, view)
  {
    hide SumSizes;
  }

  lemma StepCountsReceived(meta: Meta, st: ReplayState, t: Time, k: StepKind, n: NodeId, receipts: seq<Receipt>)
    requires WellFormed(meta, st) && st.lastStepTime == t && n in st.nodes && CountsReceived(st.nodes[n], receipts)
    requires ApplyStep(meta, st, t, k).Running?
    ensures var st1 := ApplyStep(meta, st, t, k).st;
      n in st1.nodes && CountsReceived(st1.nodes[n], receipts + ReceivedBy(st, k, n))
  {
    hide Tallied, SumBits, Created, Received, Sent, NodeStep, ArrivalErrors, PacketSent, UsedBps;
    if k.PacketInNode? && k.node == n && k.packet in st.inFlight {
      ReceiptCounts(st.nodes[n], receipts, n, k.packet, k.number, k.size, k.droppedOnArrival, t);
    } else {
      assert receipts + [] == receipts;
      OthersCountNothing(st.nodes[n], t, k);
    }
  }

  lemma AdvanceCountsReceived(meta: Meta, order: seq<NodeId>, st: ReplayState, t: Time, n: NodeId, receipts: seq<Receipt>)
    requires ValidOrder(meta, order) && WellFormed(meta, st) && st.lastStepTime <= t
    requires n in st.nodes && CountsReceived(st.nodes[n], receipts)
    ensures var st1 := AdvanceTo(meta, order, st, t);
      n in st1.nodes && CountsReceived(st1.nodes[n], receipts) && st1.inFlight == st.inFlight
  {
    hide SumBits, SumSizes;
  }

  /**
   * On every replayed trace, a node's counters of packets received, and of packets received out of
   * order, have the number and the bytes of exactly the packets that came off links into it, and of
   * exactly those of them with a smaller number than some packet that it received before.
   */
  lemma {:induction false} ReorderedAreOvertaken(meta: Meta, order: seq<NodeId>, trace: seq<Step>, n: NodeId)
    requires ValidOrder(meta, order) && TimeSorted(trace) && n in meta.bufferSizes
    requires ReplayTrace(meta, order, trace).Running?
    ensures n in ReplayTrace(meta, order, trace).st.nodes
    ensures CountsReceived(ReplayTrace(meta, order, trace).st.nodes[n], Receipts(meta, order, trace, n))
  {
    hide WellFormed, AdvanceTo, ApplyStep, ValidOrder, CountsReceived, ReceivedBy, InitialState;
    if trace == [] {
      StartsCounting(meta, n);
    } else {
      LastStep(meta, order, trace);
      hide ReplayTrace;
      var init, step := trace[..|trace| - 1], trace[|trace| - 1];
      ReorderedAreOvertaken(meta, order, init, n);
      var st := ReplayTrace(meta, order, init).st;
      AdvanceCountsReceived(meta, order, st, step.time, n, Receipts(meta, order, init, n));
      var st1 := AdvanceTo(meta, order, st, step.time);
      SameReceipt(st, st1, step.kind, n);
      StepCountsReceived(meta, st1, step.time, step.kind, n, Receipts(meta, order, init, n));
    }
  }

  lemma StartsCounting(meta: Meta, n: NodeId)
    requires n in meta.bufferSizes
    ensures n in InitialState(meta).nodes && CountsReceived(InitialState(meta).nodes[n], [])
  {
  }

  lemma SameReceipt(st: ReplayState, st1: ReplayState, k: StepKind, n: NodeId)
    requires st1.inFlight == st.inFlight
    ensures ReceivedBy(st1, k, n) == ReceivedBy(st, k, n)
  {
  }
}
