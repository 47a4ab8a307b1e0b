/** The packets that nodes hold, as a trace alone tells of them, and the replay that keeps just these. */
module TraceHoldings {
  import opened Types
  import opened NodeReplay
  import opened BandwidthWindow
  import opened Replay
  import opened ReplayTotals
  import opened TraceFlights

  /** The step puts the packet into the node: newly made, off a link and not dropped there, or as a duplicate. */
  predicate PutsIn(flying: set<PacketId>, k: StepKind, n: NodeId, id: PacketId) {
    && ((k.PacketInNode? && (k.packet in flying ==> !k.droppedOnArrival)) || k.PacketDuplicated?)
    && k.node == n && k.packet == id
  }

  /** The step takes the packet out of the node: onto a link, to the application, or dropped. */
  predicate TakesOut(k: StepKind, n: NodeId, id: PacketId) {
    (k.PacketInTransit? || k.PacketDeliveredToApplication? || k.PacketDropped?) && k.node == n && k.packet == id
  }

  /** What a node holds after one more step: each packet with when it came, its size, and its extra delay. */
  function Hold(held: map<PacketId, HeldPacket>, flying: set<PacketId>, step: Step, n: NodeId): map<PacketId, HeldPacket> {
    var k := step.kind;
    if (k.PacketInNode? || k.PacketDuplicated?) && PutsIn(flying, k, n, k.packet) then
      held[k.packet := HeldPacket(step.time, k.size, 0)]
    else if (k.PacketInTransit? || k.PacketDeliveredToApplication? || k.PacketDropped?) && TakesOut(k, n, k.packet) then
      held - {k.packet}
    else if k.PacketExtraDelay? && k.node == n && k.packet in held then
      held[k.packet := HeldPacket(held[k.packet].arrivedAt, held[k.packet].size, k.delay)]
    else held
  }

  function HeldIn(trace: seq<Step>, n: NodeId): map<PacketId, HeldPacket> {
    if trace == [] then map[]
    else
      var init := trace[..|trace| - 1];
      Hold(HeldIn(init, n), Flights(init).Keys, trace[|trace| - 1], n)
  }

  // ----- The replay holds the same -----

  lemma NodeStepHolds(view: NodeView, t: Time, k: StepKind)
    requires IsNodeStep(k) && Tallied(view)
    ensures var r := NodeStep(view, t, k);
      r.NodeOk? ==> r.node.packets == Hold(view.packets, {}, Step(t, k), k.node)
  {
    hide SumSizes;
  }

  lemma SentHolds(view: NodeView, n: NodeId, id: PacketId)
    requires Tallied(view)
    ensures var r := Sent(view, n, id); r.NodeOk? ==> r.node.packets == view.packets - {id}
  {
    hide SumSizes;
  }

  lemma ArrivalHolds(view: NodeView, t: Time, k: StepKind, flying: set<PacketId>)
    requires k.PacketInNode?
    ensures var r := if k.packet in flying then Received(view, k.node, k.packet, k.number, k.size, k.droppedOnArrival, t)
                     else Created(view, k.node, k.packet, k.size, t);
      r.NodeOk? ==> r.node.packets == Hold(view.packets, flying, Step(t, k), k.node)
  {
  }

  lemma StepHolds(meta: Meta, st: ReplayState, t: Time, k: StepKind, n: NodeId)
    requires WellFormed(meta, st) && st.lastStepTime == t && ApplyStep(meta, st, t, k).Running? && n in st.nodes
    ensures var st1 := ApplyStep(meta, st, t, k).st;
      n in st1.nodes && st1.nodes[n].packets == Hold(st.nodes[n].packets, st.inFlight.Keys, Step(t, k), n)
  {
    hide SumBits, Tallied, PacketSent, UsedBps, ArrivalErrors, Created, Received, Sent, NodeStep;
    if k.PacketInNode? {
      ArrivalHolds(st.nodes[k.node], t, k, st.inFlight.Keys);
    } else if k.PacketInTransit? {
      assert Tallied(st.nodes[k.node]);
      SentHolds(st.nodes[k.node], k.node, k.packet);
    } else if IsNodeStep(k) {
      NodeStepHolds(st.nodes[k.node], t, k);
    }
  }

  lemma AdvanceKeepsPackets(meta: Meta, order: seq<NodeId>, st: ReplayState, t: Time, n: NodeId)
    requires ValidOrder(meta, order) && WellFormed(meta, st) && st.lastStepTime <= t && n in st.nodes
    ensures n in AdvanceTo(meta, order, st, t).nodes
    ensures AdvanceTo(meta, order, st, t).nodes[n].packets == st.nodes[n].packets
  {
    hide SumSizes, SumBits;
  }

  lemma {:induction false} HoldingsFollowTrace(meta: Meta, order: seq<NodeId>, trace: seq<Step>, n: NodeId)
    requires ValidOrder(meta, order) && TimeSorted(trace) && ReplayTrace(meta, order, trace).Running?
    requires n in meta.bufferSizes
    ensures n in ReplayTrace(meta, order, trace).st.nodes
    ensures ReplayTrace(meta, order, trace).st.nodes[n].packets == HeldIn(trace, n)
  {
    hide WellFormed, AdvanceTo, ApplyStep, ValidOrder, Hold, Flights;
    if trace == [] {
      StartsEmpty(meta, n);
    } else {
      LastStep(meta, order, trace);
      hide ReplayTrace;
      var init, step := trace[..|trace| - 1], trace[|trace| - 1];
      HoldingsFollowTrace(meta, order, init, n);
      FlightsFollowTrace(meta, order, init);
      var st := ReplayTrace(meta, order, init).st;
      AdvanceKeepsPackets(meta, order, st, step.time, n);
      AdvanceKeepsFlights(meta, order, st, step.time);
      assert FlightsOf(st.inFlight).Keys == st.inFlight.Keys;
      StepHolds(meta, AdvanceTo(meta, order, st, step.time), step.time, step.kind, n);
    }
  }

  lemma StartsEmpty(meta: Meta, n: NodeId)
    requires n in meta.bufferSizes
    ensures n in InitialState(meta).nodes && InitialState(meta).nodes[n].packets == map[]
  {
  }
}
