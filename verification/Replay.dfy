/** The replay verifier as a fold over a trace: the meaning of `SimulationVerifier.Verify`. */
module Replay {
  import opened Types
  import opened NodeReplay
  import opened BandwidthWindow

  datatype LinkMeta = LinkMeta(source: NodeId, target: NodeId, delay: Time, bandwidthBps: nat)

  datatype Meta = Meta(hosts: set<NodeId>, bufferSizes: map<NodeId, nat>, links: map<LinkId, LinkMeta>)

  datatype InFlight = InFlight(size: nat, sentAt: Time, extraDelay: Time, link: LinkId)

  datatype ReplayState = ReplayState(
    nodes: map<NodeId, NodeView>,
    links: map<LinkId, LinkView>,
    inFlight: map<PacketId, InFlight>,
    lostByLink: map<LinkId, PacketStats>,
    errors: seq<NonFatalError>,
    lastStepTime: Time,
    lastUsageUpdate: Option<Time>)

  datatype Outcome =
    | Running(st: ReplayState)
    | Failed(fatal: FatalError, errors: seq<NonFatalError>)

  /**
   * The nodes are kept in a hash map whose keys never change, so every scan of it visits them in
   * one and the same order. Nothing is known about that order beyond its visiting each node once.
   */
  ghost predicate ValidOrder(meta: Meta, order: seq<NodeId>) {
    && (forall n :: n in meta.bufferSizes <==> n in order)
    && (forall i, j :: 0 <= i < j < |order| ==> order[i] != order[j])
  }

  ghost predicate WellFormed(meta: Meta, st: ReplayState) {
    && st.nodes.Keys == meta.bufferSizes.Keys
    && st.links.Keys == meta.links.Keys
    && (forall n :: n in st.nodes ==> Tallied(st.nodes[n]))
    && (forall l :: l in st.links ==> st.links[l].usageBits == SumBits(st.links[l].window))
    && (forall id :: id in st.inFlight ==>
          st.inFlight[id].link in meta.links && st.inFlight[id].sentAt <= st.lastStepTime)
  }

  function InitialState(meta: Meta): ReplayState {
    ReplayState(map n | n in meta.bufferSizes :: FRESH_NODE, map l | l in meta.links :: FRESH_LINK,
                map[], map[], [], 0, None)
  }

  // ----- End-of-instant buffer check -----

  datatype UsageCheck = UsageCheck(nodes: map<NodeId, NodeView>, error: Option<NonFatalError>)

  /** Visits the nodes in order, and stops at the first that ever held more than its buffer. */
  function UpdateMaxBufferUsage(meta: Meta, order: seq<NodeId>, nodes: map<NodeId, NodeView>): (r: UsageCheck)
    requires forall n :: n in order ==> n in nodes && n in meta.bufferSizes
    ensures r.nodes.Keys == nodes.Keys
    ensures forall n :: n in nodes ==> r.nodes[n] == nodes[n] || r.nodes[n] == UpdateMaxUsage(nodes[n])
  {
    if order == [] then UsageCheck(nodes, None)
    else
      var n := order[0];
      var updated := UpdateMaxUsage(nodes[n]);
      var nodes1 := nodes[n := updated];
      if meta.bufferSizes[n] < updated.maxBufferUsage then
        UsageCheck(nodes1, Some(NodeExceedsBufferSize(n, meta.bufferSizes[n], updated.maxBufferUsage)))
      else UpdateMaxBufferUsage(meta, order[1..], nodes1)
  }

  function CheckUsage(meta: Meta, order: seq<NodeId>, st: ReplayState): ReplayState
    requires ValidOrder(meta, order) && st.nodes.Keys == meta.bufferSizes.Keys
  {
    var r := UpdateMaxBufferUsage(meta, order, st.nodes);
    st.(nodes := r.nodes, errors := st.errors + if r.error.Some? then [r.error.value] else [])
  }

  /** What happens before a step at time `t`: the buffers are checked if a new instant begins. */
  function AdvanceTo(meta: Meta, order: seq<NodeId>, st: ReplayState, t: Time): (r: ReplayState)
    requires ValidOrder(meta, order) && WellFormed(meta, st) && st.lastStepTime <= t
    ensures WellFormed(meta, r) && r.lastStepTime == t
  {
    if t == st.lastStepTime then st
    else CheckUsage(meta, order, st).(lastUsageUpdate := Some(st.lastStepTime), lastStepTime := t)
  }

  // ----- One step -----

  function WithNode(st: ReplayState, n: NodeId, r: NodeResult): Outcome {
    match r
    case NodeOk(view, errors) => Running(st.(nodes := st.nodes[n := view], errors := st.errors + errors))
    case NodeFatal(fatal, errors) => Failed(fatal, st.errors + errors)
  }

  /** What the verifier holds against a packet that comes off a link. */
  function ArrivalErrors(meta: Meta, st: ReplayState, f: InFlight, n: NodeId, t: Time): seq<NonFatalError>
    requires WellFormed(meta, st) && f.link in meta.links && f.sentAt <= t
  {
    var lastDown := st.links[f.link].lastDown;
    (if n != meta.links[f.link].target then [DisconnectedPacketReceive(n, f.link)] else [])
    + (if t - f.sentAt < meta.links[f.link].delay + f.extraDelay then [TooFastPacketReceive(n, f.link)] else [])
    + (if lastDown.Some? && f.sentAt <= lastDown.value
       then [OfflinePacketReceive(n, f.link, f.sentAt, lastDown.value)] else [])
  }

  function StepInNode(meta: Meta, st: ReplayState, t: Time, k: StepKind): Outcome
    requires WellFormed(meta, st) && st.lastStepTime == t && k.PacketInNode?
  {
    if k.packet in st.inFlight then
      var f := st.inFlight[k.packet];
      var st1 := st.(inFlight := st.inFlight - {k.packet},
                     errors := st.errors + ArrivalErrors(meta, st, f, k.node, t));
      if k.node !in st.nodes then Failed(MissingNode(k.node), st1.errors)
      else WithNode(st1, k.node,
                    Received(st.nodes[k.node], k.node, k.packet, k.number, k.size, k.droppedOnArrival, t))
    else
      var st1 := st.(errors := st.errors
        + if k.node in meta.hosts then [] else [PacketCreatedByRouterNode(k.node, k.packet)]);
      if k.node !in st.nodes then Failed(MissingNode(k.node), st1.errors)
      else WithNode(st1, k.node, Created(st.nodes[k.node], k.node, k.packet, k.size, t))
  }

  /** The state once the sending node is known to hold the packet, which goes onto link `k.link`. */
  function SendOnLink(meta: Meta, st: ReplayState, t: Time, k: StepKind, p: HeldPacket): ReplayState
    requires WellFormed(meta, st) && k.PacketInTransit? && k.link in meta.links
  {
    var m := meta.links[k.link];
    var link := PacketSent(st.links[k.link], t, p.size, m.bandwidthBps);
    var used := UsedBps(link, m.bandwidthBps);
    st.(links := st.links[k.link := link],
        inFlight := st.inFlight[k.packet := InFlight(p.size, t, p.extraDelay, k.link)],
        errors := st.errors
          + (if k.node != m.source then [DisconnectedPacketSend(k.node, k.link)] else [])
          + (if !st.links[k.link].up then [OfflinePacketSend(k.node, k.link)] else [])
          + (if m.bandwidthBps < used
             then [LinkBandwidthExceeded(k.node, k.link, k.packet, m.bandwidthBps, used)] else []))
  }

  function StepInTransit(meta: Meta, st: ReplayState, t: Time, k: StepKind): Outcome
    requires WellFormed(meta, st) && st.lastStepTime == t && k.PacketInTransit?
  {
    if k.node !in st.nodes then Failed(MissingNode(k.node), st.errors)
    else
      var r := WithNode(st, k.node, Sent(st.nodes[k.node], k.node, k.packet));
      if r.Failed? then r
      else if k.link !in meta.links then Failed(MissingLink(k.link), r.st.errors)
      else
        StepsKeepTally(st.nodes[k.node], k.node, k.packet, 0, 0, false, Random, 0, t);
        Running(SendOnLink(meta, r.st, t, k, st.nodes[k.node].packets[k.packet]))
  }

  function StatsOf(lost: map<LinkId, PacketStats>, l: LinkId): PacketStats {
    if l in lost then lost[l] else NO_PACKETS
  }

  function StepLost(st: ReplayState, k: StepKind): ReplayState
    requires k.PacketLostInTransit?
  {
    if k.packet in st.inFlight then
      st.(inFlight := st.inFlight - {k.packet},
          lostByLink := st.lostByLink[k.link :=
            StatsOf(st.lostByLink, k.link).TrackOne(st.inFlight[k.packet].size)])
    else st.(errors := st.errors + [MissingLostPacket(k.packet)])
  }

  function ReplayLinkEvent(st: ReplayState, t: Time, e: LinkEvent): Outcome {
    if e.status.None? then Running(st)
    else if e.link !in st.links then Failed(MissingLink(e.link), st.errors)
    else Running(st.(links := st.links[e.link := SetStatus(st.links[e.link], e.status.value, t)]))
  }

  function ReplayNodeEvent(st: ReplayState, t: Time, e: NodeEvent): Outcome {
    if e.node !in st.nodes then Failed(MissingNode(e.node), st.errors)
    else Running(st.(nodes := st.nodes[e.node := HandleEvent(st.nodes[e.node], e, t)]))
  }

  function StepEvent(st: ReplayState, t: Time, k: StepKind): Outcome
    requires k.NetworkEvent?
  {
    var r := if k.linkEvent.Some? then ReplayLinkEvent(st, t, k.linkEvent.value) else Running(st);
    if r.Running? && k.nodeEvent.Some? then ReplayNodeEvent(r.st, t, k.nodeEvent.value) else r
  }

  predicate IsNodeStep(k: StepKind) {
    k.PacketDuplicated? || k.PacketDropped? || k.PacketDeliveredToApplication?
    || k.PacketExtraDelay? || k.PacketCongestionEvent?
  }

  /** The steps that only concern the node they name. */
  function NodeStep(view: NodeView, t: Time, k: StepKind): NodeResult
    requires IsNodeStep(k) && Tallied(view)
  {
    match k
    case PacketDuplicated(id, _, size, n) => Duplicated(view, n, id, size, t)
    case PacketDropped(id, _, reason) => Dropped(view, id, reason)
    case PacketDeliveredToApplication(id, _, _, _) => Delivered(view, id)
    case PacketExtraDelay(id, _, delay) => HasExtraDelay(view, id, delay)
    case PacketCongestionEvent(_, _, size, _) => NodeOk(Ecn(view, size), [])
  }

  function ApplyStep(meta: Meta, st: ReplayState, t: Time, k: StepKind): Outcome
    requires WellFormed(meta, st) && st.lastStepTime == t
  {
    if k.PacketInNode? then StepInNode(meta, st, t, k)
    else if k.PacketInTransit? then StepInTransit(meta, st, t, k)
    else if k.PacketLostInTransit? then Running(StepLost(st, k))
    else if k.NetworkEvent? then StepEvent(st, t, k)
    else if k.node !in st.nodes then Failed(MissingNode(k.node), st.errors)
    else WithNode(st, k.node, NodeStep(st.nodes[k.node], t, k))
  }

  ghost predicate Preserved(meta: Meta, before: ReplayState, o: Outcome) {
    o.Running? ==>
      && WellFormed(meta, o.st)
      && o.st.lastStepTime == before.lastStepTime
      && o.st.lastUsageUpdate == before.lastUsageUpdate
  }

  lemma WithNodePreserves(meta: Meta, st: ReplayState, n: NodeId, r: NodeResult)
    requires WellFormed(meta, st) && n in st.nodes
    requires r.NodeOk? ==> Tallied(r.node)
    ensures Preserved(meta, st, WithNode(st, n, r))
  {
  }

  lemma StepInNodePreserves(meta: Meta, st: ReplayState, t: Time, k: StepKind)
    requires WellFormed(meta, st) && st.lastStepTime == t && k.PacketInNode?
    ensures Preserved(meta, st, StepInNode(meta, st, t, k))
  {
    if k.node in st.nodes {
      var view := st.nodes[k.node];
      StepsKeepTally(view, k.node, k.packet, k.number, k.size, k.droppedOnArrival, Random, 0, t);
      if k.packet in st.inFlight {
        var f := st.inFlight[k.packet];
        var st1 := st.(inFlight := st.inFlight - {k.packet},
                       errors := st.errors + ArrivalErrors(meta, st, f, k.node, t));
        assert WellFormed(meta, st1);
        WithNodePreserves(meta, st1, k.node,
          Received(view, k.node, k.packet, k.number, k.size, k.droppedOnArrival, t));
      } else {
        var st1 := st.(errors := st.errors
          + if k.node in meta.hosts then [] else [PacketCreatedByRouterNode(k.node, k.packet)]);
        WithNodePreserves(meta, st1, k.node, Created(view, k.node, k.packet, k.size, t));
      }
    }
  }

  lemma SendOnLinkPreserves(meta: Meta, st: ReplayState, t: Time, k: StepKind, p: HeldPacket)
    requires WellFormed(meta, st) && st.lastStepTime == t && k.PacketInTransit? && k.link in meta.links
    ensures Preserved(meta, st, Running(SendOnLink(meta, st, t, k, p)))
  {
    var st' := SendOnLink(meta, st, t, k, p);
    forall id | id in st'.inFlight
      ensures st'.inFlight[id].link in meta.links && st'.inFlight[id].sentAt <= st'.lastStepTime
    {
      assert id == k.packet || id in st.inFlight;
    }
  }

  lemma StepInTransitPreserves(meta: Meta, st: ReplayState, t: Time, k: StepKind)
    requires WellFormed(meta, st) && st.lastStepTime == t && k.PacketInTransit?
    ensures Preserved(meta, st, StepInTransit(meta, st, t, k))
  {
    if k.node in st.nodes {
      var r := Sent(st.nodes[k.node], k.node, k.packet);
      StepsKeepTally(st.nodes[k.node], k.node, k.packet, 0, 0, false, Random, 0, t);
      WithNodePreserves(meta, st, k.node, r);
      if r.NodeOk? && k.link in meta.links {
        SendOnLinkPreserves(meta, WithNode(st, k.node, r).st, t, k, st.nodes[k.node].packets[k.packet]);
      }
    }
  }

  lemma NodeStepPreserves(meta: Meta, st: ReplayState, t: Time, k: StepKind)
    requires WellFormed(meta, st) && st.lastStepTime == t && IsNodeStep(k) && k.node in st.nodes
    ensures Preserved(meta, st, WithNode(st, k.node, NodeStep(st.nodes[k.node], t, k)))
  {
    var view := st.nodes[k.node];
    var size := if k.PacketDuplicated? then k.size else 0;
    var reason := if k.PacketDropped? then k.reason else Random;
    var delay := if k.PacketExtraDelay? then k.delay else 0;
    StepsKeepTally(view, k.node, k.packet, 0, size, false, reason, delay, t);
    WithNodePreserves(meta, st, k.node, NodeStep(view, t, k));
  }

  lemma LinkEventPreserves(meta: Meta, st: ReplayState, t: Time, e: LinkEvent)
    requires WellFormed(meta, st)
    ensures Preserved(meta, st, ReplayLinkEvent(st, t, e))
  {
  }

  lemma NodeEventPreserves(meta: Meta, st: ReplayState, t: Time, e: NodeEvent)
    requires WellFormed(meta, st)
    ensures Preserved(meta, st, ReplayNodeEvent(st, t, e))
  {
  }

  lemma StepEventPreserves(meta: Meta, st: ReplayState, t: Time, k: StepKind)
    requires WellFormed(meta, st) && st.lastStepTime == t && k.NetworkEvent?
    ensures Preserved(meta, st, StepEvent(st, t, k))
  {
    if k.linkEvent.Some? {
      LinkEventPreserves(meta, st, t, k.linkEvent.value);
    }
    var r := if k.linkEvent.Some? then ReplayLinkEvent(st, t, k.linkEvent.value) else Running(st);
    if r.Running? && k.nodeEvent.Some? {
      NodeEventPreserves(meta, r.st, t, k.nodeEvent.value);
    }
  }

  lemma ApplyStepPreserves(meta: Meta, st: ReplayState, t: Time, k: StepKind)
    requires WellFormed(meta, st) && st.lastStepTime == t
    ensures Preserved(meta, st, ApplyStep(meta, st, t, k))
  {
    if k.PacketInNode? {
      StepInNodePreserves(meta, st, t, k);
    } else if k.PacketInTransit? {
      StepInTransitPreserves(meta, st, t, k);
    } else if k.NetworkEvent? {
      StepEventPreserves(meta, st, t, k);
    } else if IsNodeStep(k) && k.node in st.nodes {
      NodeStepPreserves(meta, st, t, k);
    }
  }

  // ----- The whole trace -----

  function Next(meta: Meta, order: seq<NodeId>, o: Outcome, step: Step): (r: Outcome)
    requires ValidOrder(meta, order)
    requires o.Running? ==> WellFormed(meta, o.st) && o.st.lastStepTime <= step.time
    ensures r.Running? ==> o.Running? && WellFormed(meta, r.st) && r.st.lastStepTime == step.time
  {
    if o.Failed? then o
    else
      var st := AdvanceTo(meta, order, o.st, step.time);
      ApplyStepPreserves(meta, st, step.time, step.kind);
      ApplyStep(meta, st, step.time, step.kind)
  }

  /** The verifier's state after the steps of a trace, before the final buffer check. */
  function ReplayTrace(meta: Meta, order: seq<NodeId>, trace: seq<Step>): (o: Outcome)
    requires ValidOrder(meta, order) && TimeSorted(trace)
    ensures o.Running? ==> WellFormed(meta, o.st) && o.st.lastStepTime == LastTime(trace)
  {
    if trace == [] then Running(InitialState(meta))
    else Next(meta, order, ReplayTrace(meta, order, trace[..|trace| - 1]), trace[|trace| - 1])
  }

  function Finish(meta: Meta, order: seq<NodeId>, st: ReplayState): ReplayState
    requires ValidOrder(meta, order) && WellFormed(meta, st)
  {
    if st.lastUsageUpdate == Some(st.lastStepTime) then st else CheckUsage(meta, order, st)
  }

  /** The verdict on a trace: the final state with every non-fatal error, or the fatal error. */
  function Verdict(meta: Meta, order: seq<NodeId>, trace: seq<Step>): Outcome
    requires ValidOrder(meta, order) && TimeSorted(trace)
  {
    var o := ReplayTrace(meta, order, trace);
    if o.Failed? then o else Running(Finish(meta, order, o.st))
  }

  lemma ReplaySnoc(meta: Meta, order: seq<NodeId>, trace: seq<Step>, step: Step)
    requires ValidOrder(meta, order) && TimeSorted(trace) && LastTime(trace) <= step.time
    ensures TimeSorted(trace + [step])
    ensures ReplayTrace(meta, order, trace + [step])
         == Next(meta, order, ReplayTrace(meta, order, trace), step)
  {
    assert (trace + [step])[..|trace + [step]| - 1] == trace;
  }
}
