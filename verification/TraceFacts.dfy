/** What a trace alone tells of its nodes, links and flights, and the replay that knows just that. */
module TraceFacts {
  import opened Types
  import opened NodeReplay
  import opened BandwidthWindow
  import opened Replay
  import opened ReplayTotals
  import opened TraceFlights
  import opened TraceHoldings
  import opened ErrorCauses
  import opened LinkErrors

  // ----- Nodes -----

  predicate ClearsBuffer(k: StepKind, n: NodeId) {
    k.NetworkEvent? && k.nodeEvent.Some? && k.nodeEvent.value.node == n && k.nodeEvent.value.clearBuffer
  }

  /** The time of the last buffer clear of the node. */
  function LastClear(trace: seq<Step>, n: NodeId): Option<Time> {
    if trace == [] then None
    else if ClearsBuffer(trace[|trace| - 1].kind, n) then Some(trace[|trace| - 1].time)
    else LastClear(trace[..|trace| - 1], n)
  }

  predicate TakesNodeDown(k: StepKind, n: NodeId) {
    k.NetworkEvent? && k.nodeEvent.Some? && k.nodeEvent.value.node == n && k.nodeEvent.value.status == Some(GoDown)
  }

  /** The time of the last event that took the node down. */
  function LastNodeDown(trace: seq<Step>, n: NodeId): Option<Time> {
    if trace == [] then None
    else if TakesNodeDown(trace[|trace| - 1].kind, n) then Some(trace[|trace| - 1].time)
    else LastNodeDown(trace[..|trace| - 1], n)
  }

  lemma CallKeepsTimes(view: NodeView, t: Time, k: StepKind)
    requires Tallied(view) && IsNodeStep(k)
    ensures var r := NodeStep(view, t, k);
      r.NodeOk? ==> r.node.lastBufferClear == view.lastBufferClear && r.node.lastDown == view.lastDown
  {
    hide SumSizes;
  }

  lemma StepSetsTimes(meta: Meta, st: ReplayState, t: Time, k: StepKind, n: NodeId)
    requires WellFormed(meta, st) && st.lastStepTime == t && ApplyStep(meta, st, t, k).Running? && n in st.nodes
    ensures var st1 := ApplyStep(meta, st, t, k).st;
      && n in st1.nodes
      && st1.nodes[n].lastBufferClear == (if ClearsBuffer(k, n) then Some(t) else st.nodes[n].lastBufferClear)
      && st1.nodes[n].lastDown == (if TakesNodeDown(k, n) then Some(t) else st.nodes[n].lastDown)
  {
    hide SumSizes, SumBits, Tallied, PacketSent, UsedBps, ArrivalErrors;
    if IsNodeStep(k) && k.node == n {
      CallKeepsTimes(st.nodes[n], t, k);
    }
  }

  lemma AdvanceKeepsTimes(meta: Meta, order: seq<NodeId>, st: ReplayState, t: Time, n: NodeId)
    requires ValidOrder(meta, order) && WellFormed(meta, st) && st.lastStepTime <= t && n in st.nodes
    ensures var st1 := AdvanceTo(meta, order, st, t);
      && n in st1.nodes && st1.nodes[n].lastBufferClear == st.nodes[n].lastBufferClear
      && st1.nodes[n].lastDown == st.nodes[n].lastDown
  {
    hide SumSizes, SumBits;
  }

  /** The verifier remembers of each node's events the last clear and the last Down. */
  lemma {:induction false} TimesFollowTrace(meta: Meta, order: seq<NodeId>, trace: seq<Step>, n: NodeId)
    requires ValidOrder(meta, order) && TimeSorted(trace) && ReplayTrace(meta, order, trace).Running?
    requires n in meta.bufferSizes
    ensures n in ReplayTrace(meta, order, trace).st.nodes
    ensures ReplayTrace(meta, order, trace).st.nodes[n].lastBufferClear == LastClear(trace, n)
    ensures ReplayTrace(meta, order, trace).st.nodes[n].lastDown == LastNodeDown(trace, n)
  {
    hide WellFormed, AdvanceTo, ApplyStep, ValidOrder, InitialState, ClearsBuffer, TakesNodeDown;
    if trace == [] {
      StartsUnmarked(meta, n);
    } else {
      LastStep(meta, order, trace);
      hide ReplayTrace;
      var init, step := trace[..|trace| - 1], trace[|trace| - 1];
      TimesFollowTrace(meta, order, init, n);
      var st := ReplayTrace(meta, order, init).st;
      AdvanceKeepsTimes(meta, order, st, step.time, n);
      StepSetsTimes(meta, AdvanceTo(meta, order, st, step.time), step.time, step.kind, n);
    }
  }

  lemma StartsUnmarked(meta: Meta, n: NodeId)
    requires n in meta.bufferSizes
    ensures n in InitialState(meta).nodes
    ensures InitialState(meta).nodes[n].lastBufferClear.None? && InitialState(meta).nodes[n].lastDown.None?
  {
  }

  // ----- Links -----

  predicate SetsLink(k: StepKind, l: LinkId) {
    k.NetworkEvent? && k.linkEvent.Some? && k.linkEvent.value.link == l && k.linkEvent.value.status.Some?
  }

  /** The last update of the link's status was a Down. */
  predicate LinkDownAfter(trace: seq<Step>, l: LinkId) {
    if trace == [] then false
    else
      var k := trace[|trace| - 1].kind;
      if SetsLink(k, l) then k.linkEvent.value.status.value.GoDown? else LinkDownAfter(trace[..|trace| - 1], l)
  }

  lemma StepSetsLink(meta: Meta, st: ReplayState, t: Time, k: StepKind, l: LinkId)
    requires WellFormed(meta, st) && st.lastStepTime == t && ApplyStep(meta, st, t, k).Running? && l in st.links
    ensures var st1 := ApplyStep(meta, st, t, k).st;
      l in st1.links && (st1.links[l].up <==> if SetsLink(k, l) then k.linkEvent.value.status.value.GoUp? else st.links[l].up)
  {
    hide SumSizes, SumBits, Tallied, UsedBps, ArrivalErrors, Created, Received, Sent, NodeStep, Expire;
  }

  lemma {:induction false} LinksFollowTrace(meta: Meta, order: seq<NodeId>, trace: seq<Step>, l: LinkId)
    requires ValidOrder(meta, order) && TimeSorted(trace) && ReplayTrace(meta, order, trace).Running? && l in meta.links
    ensures l in ReplayTrace(meta, order, trace).st.links
    ensures ReplayTrace(meta, order, trace).st.links[l].up <==> !LinkDownAfter(trace, l)
  {
    hide WellFormed, AdvanceTo, ApplyStep, ValidOrder;
    if trace != [] {
      LastStep(meta, order, trace);
      hide ReplayTrace;
      var init, step := trace[..|trace| - 1], trace[|trace| - 1];
      LinksFollowTrace(meta, order, init, l);
      var st := ReplayTrace(meta, order, init).st;
      AdvanceKeepsLinks(meta, order, st, step.time);
      StepSetsLink(meta, AdvanceTo(meta, order, st, step.time), step.time, step.kind, l);
    }
  }

  // ----- Flights -----

  /** The last step that sent the packet. */
  function LastSend(trace: seq<Step>, id: PacketId): Option<nat> {
    if trace == [] then None
    else
      var k := trace[|trace| - 1].kind;
      if k.PacketInTransit? && k.packet == id then Some(|trace| - 1) else LastSend(trace[..|trace| - 1], id)
  }

  /** The packet as its node held it when step `j` sent it, if the node did. */
  function CargoOf(trace: seq<Step>, j: nat): HeldPacket
    requires j < |trace| && trace[j].kind.PacketInTransit?
  {
    var held := HeldIn(trace[..j], trace[j].kind.node);
    if trace[j].kind.packet in held then held[trace[j].kind.packet] else HeldPacket(0, 0, 0)
  }

  /** The packet as its node held it when it was last sent. */
  ghost predicate IsCargo(trace: seq<Step>, id: PacketId, size: nat, extraDelay: Time) {
    var j := LastSend(trace, id);
    && j.Some? && j.value < |trace| && trace[j.value].kind.PacketInTransit?
    && CargoOf(trace, j.value).size == size && CargoOf(trace, j.value).extraDelay == extraDelay
  }

  lemma CargoLonger(trace: seq<Step>, step: Step, id: PacketId, size: nat, extraDelay: Time)
    requires IsCargo(trace, id, size, extraDelay) && !(step.kind.PacketInTransit? && step.kind.packet == id)
    ensures IsCargo(trace + [step], id, size, extraDelay)
  {
    hide HeldIn;
    var j := LastSend(trace, id).value;
    assert (trace + [step])[..|trace|] == trace;
    assert (trace + [step])[..j] == trace[..j];
  }

  lemma SentIsCargo(trace: seq<Step>, step: Step)
    requires step.kind.PacketInTransit? && step.kind.packet in HeldIn(trace, step.kind.node)
    ensures var p := HeldIn(trace, step.kind.node)[step.kind.packet];
      IsCargo(trace + [step], step.kind.packet, p.size, p.extraDelay)
  {
    hide HeldIn;
    assert (trace + [step])[..|trace|] == trace;
  }

  lemma StepLoads(meta: Meta, st: ReplayState, t: Time, k: StepKind, id: PacketId)
    requires WellFormed(meta, st) && st.lastStepTime == t && ApplyStep(meta, st, t, k).Running?
    requires id in ApplyStep(meta, st, t, k).st.inFlight
    ensures var f := ApplyStep(meta, st, t, k).st.inFlight[id];
      if k.PacketInTransit? && k.packet == id then
        && k.node in st.nodes && id in st.nodes[k.node].packets
        && f.size == st.nodes[k.node].packets[id].size && f.extraDelay == st.nodes[k.node].packets[id].extraDelay
      else id in st.inFlight && f == st.inFlight[id]
  {
    hide SumSizes, SumBits, Tallied, PacketSent, UsedBps, ArrivalErrors, Created, Received, NodeStep;
    if k.PacketInTransit? {
      SendIs(meta, st, t, k);
      hide Sent, StepInTransit, WellFormed;
    }
  }

  /** The verifier's record of a flight has the size and the extra delay that the packet had when it was sent. */
  lemma {:induction false} CargoFollowsTrace(meta: Meta, order: seq<NodeId>, trace: seq<Step>, id: PacketId)
    requires ValidOrder(meta, order) && TimeSorted(trace) && ReplayTrace(meta, order, trace).Running?
    requires id in ReplayTrace(meta, order, trace).st.inFlight
    ensures var f := ReplayTrace(meta, order, trace).st.inFlight[id]; IsCargo(trace, id, f.size, f.extraDelay)
  {
    hide WellFormed, AdvanceTo, ApplyStep, ValidOrder, HeldIn, IsCargo;
    if trace == [] {
      assert false;
    } else {
      LastStep(meta, order, trace);
      hide ReplayTrace;
      var init, step := trace[..|trace| - 1], trace[|trace| - 1];
      assert trace == init + [step];
      var st := ReplayTrace(meta, order, init).st;
      var st1 := AdvanceTo(meta, order, st, step.time);
      AdvanceKeepsFlights(meta, order, st, step.time);
      StepLoads(meta, st1, step.time, step.kind, id);
      if step.kind.PacketInTransit? && step.kind.packet == id {
        HeldWhenSent(meta, order, init, st1, step.time, step.kind.node);
        SentIsCargo(init, step);
      } else {
        CargoFollowsTrace(meta, order, init, id);
        var f := st.inFlight[id];
        CargoLonger(init, step, id, f.size, f.extraDelay);
      }
    }
  }

  lemma HeldWhenSent(meta: Meta, order: seq<NodeId>, trace: seq<Step>, st1: ReplayState, t: Time, n: NodeId)
    requires ValidOrder(meta, order) && TimeSorted(trace) && ReplayTrace(meta, order, trace).Running?
    requires ReplayTrace(meta, order, trace).st.lastStepTime <= t
    requires st1 == AdvanceTo(meta, order, ReplayTrace(meta, order, trace).st, t) && n in st1.nodes
    ensures st1.nodes[n].packets == HeldIn(trace, n)
  {
    hide ReplayTrace, ValidOrder, HeldIn;
    var st := ReplayTrace(meta, order, trace).st;
    AdvanceKeepsNodes(meta, order, st, t);
    HoldingsFollowTrace(meta, order, trace, n);
    AdvanceKeepsPackets(meta, order, st, t, n);
  }

  lemma AdvanceKeepsNodes(meta: Meta, order: seq<NodeId>, st: ReplayState, t: Time)
    requires ValidOrder(meta, order) && WellFormed(meta, st) && st.lastStepTime <= t
    ensures AdvanceTo(meta, order, st, t).nodes.Keys == st.nodes.Keys == meta.bufferSizes.Keys
  {
    hide SumSizes, SumBits;
  }
}
