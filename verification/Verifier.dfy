/** The replay verifier as the object it is: a loop over the steps that updates its nodes and links. */
module Verifier {
  import opened Types
  import opened StableSort
  import opened BandwidthWindow
  import opened NodeReplay
  import opened Replay
  import opened ReplayedObjects

  datatype NodeStats = NodeStats(
    sent: PacketStats,
    received: PacketStats,
    receivedOutOfOrder: PacketStats,
    duplicates: PacketStats,
    droppedInjected: PacketStats,
    droppedBufferFull: PacketStats,
    maxBufferUsage: nat,
    congestionExperienced: PacketStats,
    droppedOnArrival: PacketStats,
    droppedBufferCleared: PacketStats)

  datatype LinkStats = LinkStats(droppedInTransit: PacketStats, maxUsedBandwidthBps: nat)

  datatype Report =
    | Verified(nodes: map<NodeId, NodeStats>, links: map<LinkId, LinkStats>, errors: seq<NonFatalError>)
    | Invalid(fatal: FatalError, errors: seq<NonFatalError>)

  function StatsOfNode(n: NodeView): NodeStats {
    NodeStats(n.sent, n.received, n.reordered, n.duplicated, n.droppedInjected, n.droppedBufferFull,
              n.maxBufferUsage, n.ecn, n.droppedDown, n.droppedBufferCleared)
  }

  /** A link has statistics if it exists, or if a step said that it lost a packet. */
  function StatsOfLinks(links: map<LinkId, LinkView>, lost: map<LinkId, PacketStats>): map<LinkId, LinkStats> {
    map l | l in links.Keys + lost.Keys :: LinkStats(StatsOf(lost, l), if l in links then links[l].maxBps else 0)
  }

  function ReportOf(o: Outcome): Report {
    if o.Failed? then Invalid(o.fatal, o.errors)
    else Verified(map n | n in o.st.nodes :: StatsOfNode(o.st.nodes[n]),
                  StatsOfLinks(o.st.links, o.st.lostByLink), o.st.errors)
  }

  function StepTime(s: Step): nat {
    s.time
  }

  /** The variables of `Verify` that outlive a step. */
  datatype Locals = Locals(lostByLink: map<LinkId, PacketStats>, lastStepTime: Time, lastUsageUpdate: Option<Time>)

  class SimulationVerifier {
    const hostNodes: set<NodeId>
    const nodeMetadata: map<NodeId, nat>
    const linkMetadata: map<LinkId, LinkMeta>
    const errorTracker: ErrorTracker
    const nodes: map<NodeId, ReplayedNode>
    const links: map<LinkId, ReplayedLink>
    /** The order in which the hash map of nodes is visited. */
    const order: seq<NodeId>
    var steps: seq<Step>
    var inFlightPackets: map<PacketId, InFlight>

    ghost function Metadata(): Meta {
      Meta(hostNodes, nodeMetadata, linkMetadata)
    }

    /** Every node and link has a record of its own. */
    ghost predicate Laid() {
      && nodes.Keys == nodeMetadata.Keys && links.Keys == linkMetadata.Keys
      && (forall m, n :: m in nodes && n in nodes && m != n ==> nodes[m] != nodes[n])
      && (forall k, l :: k in links && l in links && k != l ==> links[k] != links[l])
      && (forall n :: n in nodes ==> nodes[n].id == n && nodes[n].errorTracker == errorTracker)
      && ValidOrder(Metadata(), order)
    }

    ghost function NodeViews(): map<NodeId, NodeView>
      reads nodes.Values
    {
      map n | n in nodes :: nodes[n].View()
    }

    ghost function LinkViews(): map<LinkId, LinkView>
      reads links.Values
    {
      map l | l in links :: links[l].View()
    }

    ghost function View(v: Locals): ReplayState
      reads this`inFlightPackets, errorTracker, nodes.Values, links.Values
    {
      ReplayState(NodeViews(), LinkViews(), inFlightPackets, v.lostByLink, errorTracker.nonFatalErrors,
                  v.lastStepTime, v.lastUsageUpdate)
    }

    ghost predicate Valid(v: Locals)
      reads this`inFlightPackets, errorTracker, nodes.Values, links.Values
    {
      Laid() && WellFormed(Metadata(), View(v))
    }

    /** The object has come to this outcome of a step. */
    ghost predicate Reached(o: Outcome, v: Locals, fatal: Option<FatalError>)
      reads this`inFlightPackets, errorTracker, nodes.Values, links.Values
    {
      && (o.Failed? ==> fatal == Some(o.fatal) && errorTracker.nonFatalErrors == o.errors)
      && (o.Running? ==> fatal.None? && View(v) == o.st)
    }

    /** Steps out of order are put in order, without changing the order of steps at the same time. */
    constructor (steps: seq<Step>, meta: Meta, order: seq<NodeId>)
      requires ValidOrder(meta, order)
      ensures Metadata() == meta && this.order == order && this.steps == SortBy(steps, StepTime)
      ensures TimeSorted(this.steps)
      ensures Laid() && View(Locals(map[], 0, None)) == InitialState(meta)
      ensures fresh(errorTracker) && fresh(nodes.Values) && fresh(links.Values)
    {
      hide SortBy, SortedBy, ValidOrder, Tallied;
      var tracker := new ErrorTracker();
      var ns := FreshNodes(meta.bufferSizes.Keys, tracker);
      var ls := FreshLinks(meta.links.Keys);
      SortingSortedSteps(steps);
      hostNodes, nodeMetadata, linkMetadata := meta.hosts, meta.bufferSizes, meta.links;
      errorTracker, nodes, links, inFlightPackets := tracker, ns, ls, map[];
      this.order := order;
      this.steps := if SortedBy(steps, StepTime) then steps else SortBy(steps, StepTime);
      new;
      hide ReplayedNode.View, ReplayedLink.View, View, InitialState;
      StartsFresh(meta);
    }

    lemma StartsFresh(meta: Meta)
      requires Metadata() == meta && nodes.Keys == meta.bufferSizes.Keys && links.Keys == meta.links.Keys
      requires forall n :: n in nodes ==> nodes[n].View() == FRESH_NODE
      requires forall l :: l in links ==> links[l].View() == FRESH_LINK
      requires inFlightPackets == map[] && errorTracker.nonFatalErrors == []
      ensures View(Locals(map[], 0, None)) == InitialState(meta)
    {
      hide ReplayedNode.View, ReplayedLink.View, NodeViews, LinkViews;
      AllLookLike(FRESH_NODE, FRESH_LINK);
    }

    lemma AllLookLike(node: NodeView, link: LinkView)
      requires forall n :: n in nodes ==> nodes[n].View() == node
      requires forall l :: l in links ==> links[l].View() == link
      ensures NodeViews() == map n | n in nodes :: node
      ensures LinkViews() == map l | l in links :: link
    {
      hide ReplayedNode.View, ReplayedLink.View;
    }

    lemma NodeIsValid(v: Locals, n: NodeId)
      requires Valid(v) && n in nodes
      ensures nodes[n].Valid() && nodes[n].View() == NodeViews()[n] && n in nodeMetadata
    {
      hide SumSizes, SumBits;
      assert n in View(v).nodes && View(v).nodes[n] == nodes[n].View();
    }

    lemma LinkIsValid(v: Locals, l: LinkId)
      requires Valid(v) && l in links
      ensures links[l].Valid() && links[l].View() == LinkViews()[l] && l in linkMetadata
    {
      hide SumSizes, SumBits, Tallied;
      assert l in View(v).links && View(v).links[l] == links[l].View();
    }

    /** Everything but the records of `ns` and `ls` is as `st` has it. */
    ghost predicate AsBefore(st: ReplayState, ns: set<NodeId>, ls: set<LinkId>)
      reads nodes.Values, links.Values
    {
      && st.nodes.Keys == nodes.Keys && st.links.Keys == links.Keys
      && (forall n :: n in nodes && n !in ns ==> nodes[n].View() == st.nodes[n])
      && (forall l :: l in links && l !in ls ==> links[l].View() == st.links[l])
    }

    lemma ViewsAsBefore(st: ReplayState, n: NodeId, l: LinkId)
      ensures n in nodes && AsBefore(st, {n}, {}) ==>
        NodeViews() == st.nodes[n := nodes[n].View()] && LinkViews() == st.links
      ensures l in links && AsBefore(st, {}, {l}) ==>
        NodeViews() == st.nodes && LinkViews() == st.links[l := links[l].View()]
    {
      hide ReplayedNode.View, ReplayedLink.View;
    }

    /** One node did what it should; then so did the verifier. */
    lemma NodeDid(st: ReplayState, n: NodeId, r: NodeResult, v: Locals, fatal: Option<FatalError>)
      requires Laid() && n in nodes && AsBefore(st, {n}, {}) && st == View(v).(nodes := st.nodes, errors := st.errors)
      requires nodes[n].Did(r, st.errors, fatal)
      ensures Reached(WithNode(st, n, r), v, fatal)
    {
      hide ReplayedNode.View, ReplayedLink.View, NodeViews, LinkViews, ReplayedNode.Valid, ValidOrder, AsBefore;
      ViewsAsBefore(st, n, 0);
    }

    // ----- One step -----

    /** The checks on a packet that comes off a link. */
    method CheckArrival(f: InFlight, n: NodeId, t: Time, ghost v: Locals)
      requires Valid(v) && f.link in linkMetadata && f.sentAt <= t
      modifies errorTracker
      ensures errorTracker.nonFatalErrors
           == old(errorTracker.nonFatalErrors) + ArrivalErrors(Metadata(), old(View(v)), f, n, t)
    {
      hide SumBits, Tallied, ValidOrder;
      var metadata := linkMetadata[f.link];
      if n != metadata.target {
        errorTracker.Track(DisconnectedPacketReceive(n, f.link));
      }
      if t - f.sentAt < metadata.delay + f.extraDelay {
        errorTracker.Track(TooFastPacketReceive(n, f.link));
      }
      var lastDown := links[f.link].lastDownRelative;
      if lastDown.Some? && f.sentAt <= lastDown.value {
        errorTracker.Track(OfflinePacketReceive(n, f.link, f.sentAt, lastDown.value));
      }
    }

    method Receive(k: StepKind, t: Time, ghost v: Locals) returns (fatal: Option<FatalError>)
      requires Laid() && k.PacketInNode? && k.node in nodes && nodes[k.node].Valid()
      modifies errorTracker, nodes.Values
      ensures Reached(WithNode(old(View(v)), k.node,
        Received(old(NodeViews())[k.node], k.node, k.packet, k.number, k.size, k.droppedOnArrival, t)), v, fatal)
    {
      hide Received, ValidOrder, ReplayedNode.Valid, ReplayedNode.View, ReplayedLink.View, ReplayedNode.Did, Reached,
        WithNode;
      ghost var r := Received(NodeViews()[k.node], k.node, k.packet, k.number, k.size, k.droppedOnArrival, t);
      ghost var st := View(v);
      fatal := nodes[k.node].PacketReceived(k.packet, k.number, k.size, k.droppedOnArrival, t);
      NodeDid(st, k.node, r, v, fatal);
    }

    method Create(k: StepKind, t: Time, ghost v: Locals) returns (fatal: Option<FatalError>)
      requires Laid() && k.PacketInNode? && k.node in nodes && nodes[k.node].Valid()
      modifies errorTracker, nodes.Values
      ensures Reached(WithNode(old(View(v)), k.node,
        Created(old(NodeViews())[k.node], k.node, k.packet, k.size, t)), v, fatal)
    {
      hide Created, ValidOrder, ReplayedNode.Valid, ReplayedNode.View, ReplayedLink.View, ReplayedNode.Did, Reached,
        WithNode;
      ghost var r := Created(NodeViews()[k.node], k.node, k.packet, k.size, t);
      ghost var st := View(v);
      fatal := nodes[k.node].PacketCreated(k.packet, k.size, t);
      NodeDid(st, k.node, r, v, fatal);
    }

    method TakeOffLink(k: StepKind, t: Time, ghost v: Locals)
      requires Valid(v) && v.lastStepTime == t && k.PacketInNode? && k.packet in inFlightPackets
      requires inFlightPackets[k.packet].link in linkMetadata && inFlightPackets[k.packet].sentAt <= t
      modifies this`inFlightPackets, errorTracker
      ensures var st := old(View(v));
        View(v) == st.(inFlight := st.inFlight - {k.packet},
                       errors := st.errors + ArrivalErrors(Metadata(), st, st.inFlight[k.packet], k.node, t))
    {
      hide WellFormed, ArrivalErrors, Laid, NodeViews, LinkViews;
      CheckArrival(inFlightPackets[k.packet], k.node, t, v);
      inFlightPackets := inFlightPackets - {k.packet};
    }

    lemma FlightKnown(v: Locals, id: PacketId)
      requires Valid(v) && id in inFlightPackets
      ensures inFlightPackets[id].link in linkMetadata && inFlightPackets[id].sentAt <= v.lastStepTime
    {
      hide SumBits, Tallied;
      assert id in View(v).inFlight;
    }

    method StepOffLink(k: StepKind, t: Time, ghost v: Locals) returns (fatal: Option<FatalError>)
      requires Valid(v) && v.lastStepTime == t && k.PacketInNode? && k.packet in inFlightPackets
      modifies this`inFlightPackets, errorTracker, nodes.Values
      ensures Reached(Replay.StepInNode(Metadata(), old(View(v)), t, k), v, fatal)
    {
      FlightKnown(v, k.packet);
      if k.node in nodes {
        NodeIsValid(v, k.node);
      }
      hide Received, Created, WellFormed, ArrivalErrors, Laid, ReplayedNode.Valid, ReplayedNode.View, ReplayedLink.View;
      hide NodeViews, LinkViews, WithNode;
      TakeOffLink(k, t, v);
      if k.node !in nodes {
        return Some(MissingNode(k.node));
      }
      fatal := Receive(k, t, v);
    }

    method StepNewPacket(k: StepKind, t: Time, ghost v: Locals) returns (fatal: Option<FatalError>)
      requires Valid(v) && v.lastStepTime == t && k.PacketInNode? && k.packet !in inFlightPackets
      modifies errorTracker, nodes.Values
      ensures Reached(Replay.StepInNode(Metadata(), old(View(v)), t, k), v, fatal)
    {
      if k.node in nodes {
        NodeIsValid(v, k.node);
      }
      hide Received, Created, WellFormed, ArrivalErrors, Laid, ReplayedNode.Valid, ReplayedNode.View, ReplayedLink.View;
      hide NodeViews, LinkViews, WithNode;
      var error := if k.node in hostNodes then None else Some(PacketCreatedByRouterNode(k.node, k.packet));
      TrackIfAny(error, v);
      if k.node !in nodes {
        return Some(MissingNode(k.node));
      }
      fatal := Create(k, t, v);
    }

    lemma ShowsPackets(n: NodeId)
      requires n in nodes
      ensures NodeViews()[n] == nodes[n].View() && NodeViews()[n].packets == nodes[n].packets
    {
    }

    method CallPacketSent(n: NodeId, id: PacketId, ghost v: Locals)
      returns (fatal: Option<FatalError>, sent: Option<HeldPacket>)
      requires Laid() && n in nodes && nodes[n].Valid()
      modifies errorTracker, nodes[n]
      ensures AsBefore(old(View(v)), {n}, {}) && inFlightPackets == old(inFlightPackets)
      ensures nodes[n].Did(Sent(old(nodes[n].View()), n, id), old(errorTracker.nonFatalErrors), fatal)
      ensures fatal.None? ==> id in old(nodes[n].packets) && sent == Some(old(nodes[n].packets)[id])
    {
      hide Sent, ValidOrder, ReplayedNode.View, ReplayedLink.View, ReplayedNode.Did;
      fatal, sent := nodes[n].PacketSent(id);
    }

    method Depart(k: StepKind, t: Time, ghost v: Locals) returns (fatal: Option<FatalError>, sent: Option<HeldPacket>)
      requires Laid() && k.PacketInTransit? && k.node in nodes && nodes[k.node].Valid()
      modifies errorTracker, nodes.Values
      ensures Reached(WithNode(old(View(v)), k.node, Sent(old(NodeViews())[k.node], k.node, k.packet)), v, fatal)
      ensures fatal.None? ==>
        k.packet in old(NodeViews())[k.node].packets && sent == Some(old(NodeViews())[k.node].packets[k.packet])
    {
      ghost var st := View(v);
      ghost var r := Sent(NodeViews()[k.node], k.node, k.packet);
      ShowsPackets(k.node);
      hide Sent, Laid, ReplayedNode.View, ReplayedLink.View, ReplayedNode.Did, Reached, WithNode, NodeViews,
        LinkViews, AsBefore;
      fatal, sent := CallPacketSent(k.node, k.packet, v);
      NodeDid(st, k.node, r, v, fatal);
    }

    /** The checks on the link itself. */
    method CheckSend(k: StepKind)
      requires k.PacketInTransit? && k.link in linkMetadata && k.link in links
      modifies errorTracker
      ensures errorTracker.nonFatalErrors == old(errorTracker.nonFatalErrors)
        + (if k.node != linkMetadata[k.link].source then [DisconnectedPacketSend(k.node, k.link)] else [])
        + (if !links[k.link].View().up then [OfflinePacketSend(k.node, k.link)] else [])
    {
      if k.node != linkMetadata[k.link].source {
        errorTracker.Track(DisconnectedPacketSend(k.node, k.link));
      }
      if links[k.link].status.GoDown? {
        errorTracker.Track(OfflinePacketSend(k.node, k.link));
      }
    }

    /** The check on its bandwidth. */
    method UseBandwidth(k: StepKind, t: Time, p: HeldPacket, ghost st: ReplayState)
      requires k.PacketInTransit? && k.link in linkMetadata && k.link in links && links[k.link].Valid()
      requires Laid() && AsBefore(st, {}, {})
      modifies errorTracker, links[k.link]
      ensures AsBefore(st, {}, {k.link})
      ensures var bps := linkMetadata[k.link].bandwidthBps;
        var used := UsedBps(links[k.link].View(), bps);
        && links[k.link].View() == PacketSent(old(links[k.link].View()), t, p.size, bps)
        && errorTracker.nonFatalErrors == old(errorTracker.nonFatalErrors)
           + if bps < used then [LinkBandwidthExceeded(k.node, k.link, k.packet, bps, used)] else []
    {
      hide PacketSent, UsedBps, ReplayedLink.View, ReplayedNode.View, ValidOrder;
      var bps := linkMetadata[k.link].bandwidthBps;
      var used := links[k.link].PacketSent(t, p.size, bps);
      if bps < used {
        errorTracker.Track(LinkBandwidthExceeded(k.node, k.link, k.packet, bps, used));
      }
    }

    method TakeLink(k: StepKind, t: Time, p: HeldPacket)
      requires Laid() && k.PacketInTransit? && k.link in links && links[k.link].Valid()
      modifies errorTracker, links.Values
      ensures var bps := linkMetadata[k.link].bandwidthBps;
        var link := old(links[k.link].View());
        var used := UsedBps(PacketSent(link, t, p.size, bps), bps);
        && NodeViews() == old(NodeViews())
        && LinkViews() == old(LinkViews())[k.link := PacketSent(link, t, p.size, bps)]
        && errorTracker.nonFatalErrors == old(errorTracker.nonFatalErrors)
           + (if k.node != linkMetadata[k.link].source then [DisconnectedPacketSend(k.node, k.link)] else [])
           + (if !link.up then [OfflinePacketSend(k.node, k.link)] else [])
           + (if bps < used then [LinkBandwidthExceeded(k.node, k.link, k.packet, bps, used)] else [])
    {
      hide ValidOrder, ReplayedNode.View, ReplayedLink.View, PacketSent, UsedBps, ReplayedLink.Valid, NodeViews,
        LinkViews, AsBefore;
      ghost var st := View(Locals(map[], 0, None));
      AsNow(Locals(map[], 0, None));
      CheckSend(k);
      UseBandwidth(k, t, p, st);
      ViewsAsBefore(st, 0, k.link);
    }

    lemma LinkTaken(k: StepKind, t: Time, p: HeldPacket, v: Locals, st: ReplayState)
      requires WellFormed(Metadata(), st) && k.PacketInTransit? && k.link in linkMetadata
      requires var bps := linkMetadata[k.link].bandwidthBps;
        var link := st.links[k.link];
        var used := UsedBps(PacketSent(link, t, p.size, bps), bps);
        && View(v) == st.(links := LinkViews(), errors := errorTracker.nonFatalErrors)
        && LinkViews() == st.links[k.link := PacketSent(link, t, p.size, bps)]
        && errorTracker.nonFatalErrors == st.errors
           + (if k.node != linkMetadata[k.link].source then [DisconnectedPacketSend(k.node, k.link)] else [])
           + (if !link.up then [OfflinePacketSend(k.node, k.link)] else [])
           + (if bps < used then [LinkBandwidthExceeded(k.node, k.link, k.packet, bps, used)] else [])
      ensures View(v) == SendOnLink(Metadata(), st, t, k, p).(inFlight := st.inFlight)
    {
      hide PacketSent, UsedBps, SumBits, Tallied, NodeViews, LinkViews;
    }

    method TakeKnownLink(k: StepKind, t: Time, p: HeldPacket, ghost v: Locals)
      requires Valid(v) && k.PacketInTransit? && k.link in linkMetadata
      modifies errorTracker, links.Values
      ensures View(v) == SendOnLink(Metadata(), old(View(v)), t, k, p).(inFlight := old(inFlightPackets))
    {
      LinkIsValid(v, k.link);
      ghost var st := View(v);
      hide WellFormed, ValidOrder, ReplayedNode.View, ReplayedLink.View, PacketSent, UsedBps, ReplayedLink.Valid;
      hide NodeViews, LinkViews, SendOnLink;
      TakeLink(k, t, p);
      LinkTaken(k, t, p, v, st);
    }

    method PutOnLink(k: StepKind, t: Time, p: HeldPacket, ghost v: Locals)
      requires Valid(v) && k.PacketInTransit? && k.link in linkMetadata
      modifies this`inFlightPackets, errorTracker, links.Values
      ensures View(v) == SendOnLink(Metadata(), old(View(v)), t, k, p)
    {
      hide WellFormed, Laid, PacketSent, UsedBps, NodeViews, LinkViews, SendOnLink, ReplayedNode.View,
        ReplayedLink.View;
      TakesFlight(Metadata(), View(v), t, k, p);
      TakeKnownLink(k, t, p, v);
      inFlightPackets := inFlightPackets[k.packet := InFlight(p.size, t, p.extraDelay, k.link)];
    }

    lemma AsNow(v: Locals)
      ensures AsBefore(View(v), {}, {})
    {
      hide ReplayedNode.View, ReplayedLink.View;
    }

    lemma DepartedIsValid(st: ReplayState, v: Locals, k: StepKind)
      requires Laid() && WellFormed(Metadata(), st) && k.PacketInTransit? && k.node in st.nodes
      requires Tallied(st.nodes[k.node])
      requires Reached(WithNode(st, k.node, Sent(st.nodes[k.node], k.node, k.packet)), v, None)
      ensures Valid(v) && WithNode(st, k.node, Sent(st.nodes[k.node], k.node, k.packet)) == Running(View(v))
    {
      hide Sent, WellFormed, Tallied, View, Laid;
      StepsKeepTally(st.nodes[k.node], k.node, k.packet, 0, 0, false, Random, 0, 0);
      WithNodePreserves(Metadata(), st, k.node, Sent(st.nodes[k.node], k.node, k.packet));
    }

    method Onwards(k: StepKind, t: Time, p: HeldPacket, ghost v: Locals) returns (fatal: Option<FatalError>)
      requires Valid(v) && k.PacketInTransit?
      modifies this`inFlightPackets, errorTracker, links.Values
      ensures k.link !in linkMetadata ==> Reached(Failed(MissingLink(k.link), old(View(v)).errors), v, fatal)
      ensures k.link in linkMetadata ==> Reached(Running(SendOnLink(Metadata(), old(View(v)), t, k, p)), v, fatal)
    {
      hide WellFormed, Laid, SendOnLink, NodeViews, LinkViews;
      if k.link !in linkMetadata {
        return Some(MissingLink(k.link));
      }
      PutOnLink(k, t, p, v);
      fatal := None;
    }

    method StepInTransit(k: StepKind, t: Time, ghost v: Locals) returns (fatal: Option<FatalError>)
      requires Valid(v) && v.lastStepTime == t && k.PacketInTransit?
      modifies this`inFlightPackets, errorTracker, nodes.Values, links.Values
      ensures Reached(Replay.StepInTransit(Metadata(), old(View(v)), t, k), v, fatal)
    {
      if k.node !in nodes {
        return Some(MissingNode(k.node));
      }
      NodeIsValid(v, k.node);
      ghost var st := View(v);
      hide Sent, WellFormed, Laid, Tallied, ReplayedNode.Valid, NodeViews, LinkViews, SendOnLink, WithNode;
      var departed, sent := Depart(k, t, v);
      if departed.Some? {
        return departed;
      }
      DepartedIsValid(st, v, k);
      hide View, Reached;
      fatal := Onwards(k, t, sent.value, v);
    }

    method CallNode(n: NodeId, k: StepKind, t: Time, ghost v: Locals) returns (fatal: Option<FatalError>)
      requires Laid() && n in nodes && nodes[n].Valid() && IsNodeStep(k) && n == k.node
      modifies errorTracker, nodes[n]
      ensures AsBefore(old(View(v)), {n}, {})
      ensures nodes[n].Did(NodeStep(old(nodes[n].View()), t, k), old(errorTracker.nonFatalErrors), fatal)
    {
      hide ValidOrder, ReplayedNode.View, ReplayedLink.View, NodeStep, ReplayedNode.Did;
      fatal := CallStep(nodes[n], k, t);
    }

    method CallStep(node: ReplayedNode, k: StepKind, t: Time) returns (fatal: Option<FatalError>)
      requires IsNodeStep(k) && node.id == k.node && node.Valid()
      modifies node, node.errorTracker
      ensures node.Did(NodeStep(old(node.View()), t, k), old(node.errorTracker.nonFatalErrors), fatal)
    {
      hide ReplayedNode.View, Duplicated, Dropped, Delivered, HasExtraDelay, Ecn;
      fatal := None;
      match k {
        case PacketDuplicated(id, _, size, _) => fatal := node.PacketDuplicated(id, size, t);
        case PacketDropped(id, _, reason) => fatal := node.PacketDropped(id, reason);
        case PacketDeliveredToApplication(id, _, _, _) => fatal := node.PacketDeliveredToAppLayer(id);
        case PacketExtraDelay(id, _, delay) => fatal := node.PacketHasExtraDelay(id, delay);
        case PacketCongestionEvent(_, _, size, _) => node.PacketEcn(size);
      }
    }

    method StepNode(n: NodeId, k: StepKind, t: Time, ghost v: Locals) returns (fatal: Option<FatalError>)
      requires Laid() && IsNodeStep(k) && n == k.node && n in nodes && nodes[n].Valid()
      modifies errorTracker, nodes.Values
      ensures Reached(WithNode(old(View(v)), n, NodeStep(old(NodeViews())[n], t, k)), v, fatal)
    {
      ghost var st := View(v);
      ShowsPackets(n);
      ghost var r := NodeStep(NodeViews()[n], t, k);
      hide Laid, ReplayedNode.View, ReplayedLink.View, ReplayedNode.Did, Reached, WithNode, NodeStep, NodeViews,
        LinkViews, AsBefore;
      hide IsNodeStep, ReplayedNode.Valid;
      fatal := CallNode(n, k, t, v);
      NodeDid(st, n, r, v, fatal);
    }

    /** Changes one link, and nothing else. */
    method SetLinkStatus(l: LinkId, status: UpDown, t: Time, ghost st: ReplayState)
      requires Laid() && l in links && links[l].Valid() && AsBefore(st, {}, {})
      modifies links[l]
      ensures AsBefore(st, {}, {l}) && links[l].View() == SetStatus(old(links[l].View()), status, t)
    {
      hide ValidOrder, ReplayedNode.View, ReplayedLink.View, SetStatus;
      links[l].SetStatus(status, t);
    }

    method HandleNodeEvent(n: NodeId, e: NodeEvent, t: Time, ghost st: ReplayState)
      requires Laid() && n in nodes && nodes[n].Valid() && AsBefore(st, {}, {})
      modifies nodes[n]
      ensures AsBefore(st, {n}, {}) && nodes[n].View() == HandleEvent(old(nodes[n].View()), e, t)
    {
      hide ValidOrder, ReplayedNode.View, ReplayedLink.View, HandleEvent;
      nodes[n].HandleEvent(e, t);
    }

    method StepLinkEvent(e: LinkEvent, t: Time, ghost v: Locals) returns (fatal: Option<FatalError>)
      requires Valid(v)
      modifies links.Values
      ensures Reached(ReplayLinkEvent(old(View(v)), t, e), v, fatal)
    {
      if e.status.None? {
        return None;
      }
      if e.link !in links {
        return Some(MissingLink(e.link));
      }
      LinkIsValid(v, e.link);
      hide WellFormed, ValidOrder, ReplayedNode.View, ReplayedLink.View, SetStatus, ReplayedLink.Valid, NodeViews,
        LinkViews;
      ghost var st := View(v);
      AsNow(v);
      hide AsBefore;
      SetLinkStatus(e.link, e.status.value, t, st);
      ViewsAsBefore(st, 0, e.link);
      fatal := None;
    }

    method StepNodeEvent(e: NodeEvent, t: Time, ghost v: Locals) returns (fatal: Option<FatalError>)
      requires Valid(v)
      modifies nodes.Values
      ensures Reached(ReplayNodeEvent(old(View(v)), t, e), v, fatal)
    {
      if e.node !in nodes {
        return Some(MissingNode(e.node));
      }
      NodeIsValid(v, e.node);
      hide WellFormed, ValidOrder, ReplayedNode.View, ReplayedLink.View, HandleEvent, ReplayedNode.Valid, NodeViews,
        LinkViews;
      ghost var st := View(v);
      AsNow(v);
      hide AsBefore;
      HandleNodeEvent(e.node, e, t, st);
      ViewsAsBefore(st, e.node, 0);
      fatal := None;
    }

    method StepEvent(k: StepKind, t: Time, ghost v: Locals) returns (fatal: Option<FatalError>)
      requires Valid(v) && k.NetworkEvent?
      modifies nodes.Values, links.Values
      ensures Reached(Replay.StepEvent(old(View(v)), t, k), v, fatal)
    {
      hide WellFormed, View, ReplayLinkEvent, ReplayNodeEvent, Laid;
      fatal := None;
      if k.linkEvent.Some? {
        EventKeepsValid(View(v), t, k.linkEvent.value);
        fatal := StepLinkEvent(k.linkEvent.value, t, v);
      }
      if fatal.None? && k.nodeEvent.Some? {
        fatal := StepNodeEvent(k.nodeEvent.value, t, v);
      }
    }

    lemma EventKeepsValid(st: ReplayState, t: Time, e: LinkEvent)
      requires WellFormed(Metadata(), st)
      ensures ReplayLinkEvent(st, t, e).Running? ==> WellFormed(Metadata(), ReplayLinkEvent(st, t, e).st)
    {
      LinkEventPreserves(Metadata(), st, t, e);
    }

    method StepLost(k: StepKind, v: Locals) returns (v1: Locals)
      requires k.PacketLostInTransit?
      modifies this`inFlightPackets, errorTracker
      ensures View(v1) == Replay.StepLost(old(View(v)), k)
    {
      hide NodeViews, LinkViews;
      v1 := v;
      if k.packet in inFlightPackets {
        v1 := v.(lostByLink := v.lostByLink[k.link :=
          StatsOf(v.lostByLink, k.link).TrackOne(inFlightPackets[k.packet].size)]);
        inFlightPackets := inFlightPackets - {k.packet};
      } else {
        errorTracker.Track(MissingLostPacket(k.packet));
      }
    }

    method Apply(k: StepKind, t: Time, v: Locals) returns (fatal: Option<FatalError>, v1: Locals)
      requires Valid(v) && v.lastStepTime == t
      modifies this`inFlightPackets, errorTracker, nodes.Values, links.Values
      ensures Reached(ApplyStep(Metadata(), old(View(v)), t, k), v1, fatal)
    {
      if IsNodeStep(k) && k.node in nodes {
        NodeIsValid(v, k.node);
      }
      hide WellFormed, Laid, Reached, View, NodeStep, ReplayedNode.Valid, Replay.StepInNode, Replay.StepInTransit,
        Replay.StepEvent, Replay.StepLost, WithNode, IsNodeStep;
      fatal, v1 := None, v;
      if k.PacketInNode? {
        if k.packet in inFlightPackets {
          fatal := StepOffLink(k, t, v);
        } else {
          fatal := StepNewPacket(k, t, v);
        }
      } else if k.PacketInTransit? {
        fatal := StepInTransit(k, t, v);
      } else if k.PacketLostInTransit? {
        v1 := StepLost(k, v);
        RunningReached(v1);
      } else if k.NetworkEvent? {
        fatal := StepEvent(k, t, v);
      } else {
        fatal := StepAtNode(k, t, v);
      }
    }

    lemma RunningReached(v: Locals)
      ensures Reached(Running(View(v)), v, None)
    {
    }

    method StepAtNode(k: StepKind, t: Time, ghost v: Locals) returns (fatal: Option<FatalError>)
      requires Valid(v) && v.lastStepTime == t
      requires !k.PacketInNode? && !k.PacketInTransit? && !k.PacketLostInTransit? && !k.NetworkEvent?
      modifies errorTracker, nodes.Values
      ensures Reached(ApplyStep(Metadata(), old(View(v)), t, k), v, fatal)
    {
      if k.node in nodes {
        NodeIsValid(v, k.node);
      }
      hide WellFormed, Laid, NodeStep, ReplayedNode.Valid, WithNode;
      if k.node !in nodes {
        return Some(MissingNode(k.node));
      }
      fatal := StepNode(k.node, k, t, v);
    }

    // ----- The end of an instant -----

    /** Updates one node's maximum, and nothing else. */
    method UpdateNode(n: NodeId, ghost st: ReplayState) returns (most: nat)
      requires Laid() && n in nodes && nodes[n].Valid() && AsBefore(st, {}, {})
      modifies nodes[n]
      ensures AsBefore(st, {n}, {}) && nodes[n].View() == UpdateMaxUsage(old(nodes[n].View()))
      ensures most == nodes[n].View().maxBufferUsage && nodes[n].Valid()
    {
      most := nodes[n].UpdateMaxBufferUsage();
      hide ValidOrder, ReplayedNode.View, ReplayedLink.View, UpdateMaxUsage, ReplayedNode.Valid;
    }

    ghost predicate NodesValid()
      reads nodes.Values
    {
      forall n :: n in nodes ==> nodes[n].Valid()
    }

    lemma NodesAreValid(v: Locals)
      requires Valid(v)
      ensures NodesValid()
    {
      hide WellFormed, ReplayedNode.Valid;
      forall n | n in nodes
        ensures nodes[n].Valid()
      {
        NodeIsValid(v, n);
      }
    }

    lemma OrderKnown()
      requires Laid()
      ensures forall n :: n in order ==> n in nodes && n in nodeMetadata
    {
    }

    /** One node's turn in the check. */
    method VisitNode(n: NodeId) returns (most: nat)
      requires Laid() && NodesValid() && n in nodes
      modifies nodes.Values
      ensures NodesValid() && NodeViews() == old(NodeViews())[n := UpdateMaxUsage(old(NodeViews())[n])]
      ensures most == NodeViews()[n].maxBufferUsage && LinkViews() == old(LinkViews())
    {
      hide ValidOrder, ReplayedNode.View, ReplayedLink.View, UpdateMaxUsage, ReplayedNode.Valid, AsBefore;
      ghost var st := View(Locals(map[], 0, None));
      AsNow(Locals(map[], 0, None));
      most := UpdateNode(n, st);
      ViewsAsBefore(st, n, 0);
    }

    /** Visits the nodes, and stops at the first that ever held more than its buffer. */
    method UpdateMaxBufferUsage() returns (error: Option<NonFatalError>)
      requires Laid() && NodesValid()
      modifies nodes.Values
      ensures forall n :: n in order ==> n in nodes && n in nodeMetadata
      ensures UsageCheck(NodeViews(), error) == Replay.UpdateMaxBufferUsage(Metadata(), order, old(NodeViews()))
      ensures LinkViews() == old(LinkViews())
    {
      OrderKnown();
      hide Laid, NodesValid, UpdateMaxUsage, ReplayedNode.View, ReplayedLink.View, NodeViews, LinkViews;
      assert order[0..] == order;
      for i := 0 to |order|
        invariant NodesValid() && NodeViews().Keys == nodes.Keys && LinkViews() == old(LinkViews())
        invariant Replay.UpdateMaxBufferUsage(Metadata(), order[i..], NodeViews())
               == Replay.UpdateMaxBufferUsage(Metadata(), order, old(NodeViews()))
      {
        var most := VisitNode(order[i]);
        var bufferSize := nodeMetadata[order[i]];
        assert order[i..][1..] == order[i + 1..];
        if bufferSize < most {
          return Some(NodeExceedsBufferSize(order[i], bufferSize, most));
        }
      }
      return None;
    }

    method TrackIfAny(error: Option<NonFatalError>, ghost v: Locals)
      modifies errorTracker
      ensures View(v) == old(View(v)).(errors := old(View(v)).errors + if error.Some? then [error.value] else [])
    {
      hide NodeViews, LinkViews;
      if error.Some? {
        errorTracker.Track(error.value);
      }
    }

    method UpdateNodes(ghost v: Locals) returns (error: Option<NonFatalError>)
      requires Laid() && NodesValid()
      modifies nodes.Values
      ensures forall n :: n in order ==> n in old(View(v)).nodes && n in nodeMetadata
      ensures View(v) == old(View(v)).(nodes := View(v).nodes)
      ensures UsageCheck(View(v).nodes, error) == Replay.UpdateMaxBufferUsage(Metadata(), order, old(View(v)).nodes)
    {
      hide NodesValid, Replay.UpdateMaxBufferUsage, Laid, ReplayedNode.View, ReplayedLink.View;
      error := UpdateMaxBufferUsage();
    }

    lemma CheckedView(st: ReplayState, v: Locals, error: Option<NonFatalError>)
      requires Laid() && WellFormed(Metadata(), st)
      requires forall n :: n in order ==> n in st.nodes && n in nodeMetadata
      requires View(v) == st.(nodes := View(v).nodes, errors := st.errors + if error.Some? then [error.value] else [])
      requires UsageCheck(View(v).nodes, error) == Replay.UpdateMaxBufferUsage(Metadata(), order, st.nodes)
      ensures View(v) == CheckUsage(Metadata(), order, st)
    {
      hide WellFormed, Replay.UpdateMaxBufferUsage, View;
      CheckKeepsNodes(Metadata(), order, st);
    }

    method CheckBuffers(ghost v: Locals)
      requires Valid(v)
      modifies errorTracker, nodes.Values
      ensures View(v) == CheckUsage(Metadata(), order, old(View(v)))
    {
      NodesAreValid(v);
      CheckKeepsNodes(Metadata(), order, View(v));
      hide WellFormed, NodesValid, Replay.UpdateMaxBufferUsage, Laid, CheckUsage, View;
      ghost var st := View(v);
      var error := UpdateNodes(v);
      TrackIfAny(error, v);
      CheckedView(st, v, error);
    }

    method Advance(t: Time, v: Locals) returns (v1: Locals)
      requires Valid(v) && v.lastStepTime <= t
      modifies errorTracker, nodes.Values
      ensures View(v1) == AdvanceTo(Metadata(), order, old(View(v)), t) && v1.lastStepTime == t
    {
      v1 := v;
      if t != v.lastStepTime {
        CheckBuffers(v);
        v1 := v.(lastUsageUpdate := Some(v.lastStepTime), lastStepTime := t);
      }
    }

    /** Stats of the nodes and links at the end. */
    method Stats(v: Locals) returns (nodeStats: map<NodeId, NodeStats>, linkStats: map<LinkId, LinkStats>)
      ensures nodeStats == map n | n in nodes :: StatsOfNode(NodeViews()[n])
      ensures linkStats == StatsOfLinks(LinkViews(), v.lostByLink)
    {
      nodeStats := map n | n in nodes :: NodeStats(
        nodes[n].sentPackets, nodes[n].receivedPackets, nodes[n].reorderedPacketsReceived, nodes[n].duplicatedPackets,
        nodes[n].droppedPacketsInjected, nodes[n].droppedPacketsBufferFull, nodes[n].maxBufferUsage,
        nodes[n].ecnPackets, nodes[n].droppedPacketsDown, nodes[n].droppedPacketsBufferCleared);
      linkStats := map l | l in links.Keys + v.lostByLink.Keys ::
        LinkStats(StatsOf(v.lostByLink, l), if l in links then links[l].maxBandwidthUsageBps else 0);
    }

    lemma StartsReplay(v: Locals)
      requires Laid() && View(v) == InitialState(Metadata())
      ensures Valid(v) && ReplayTrace(Metadata(), order, []) == Running(View(v))
    {
    }

    lemma NextReplays(trace: seq<Step>, i: nat, st: ReplayState)
      requires Laid() && TimeSorted(trace) && i < |trace|
      requires ReplayTrace(Metadata(), order, trace[..i]) == Running(st)
      ensures WellFormed(Metadata(), st) && st.lastStepTime == LastTime(trace[..i]) && st.lastStepTime <= trace[i].time
      ensures var st1 := AdvanceTo(Metadata(), order, st, trace[i].time);
        && WellFormed(Metadata(), st1) && st1.lastStepTime == trace[i].time
        && ReplayTrace(Metadata(), order, trace[..i + 1]) == ApplyStep(Metadata(), st1, trace[i].time, trace[i].kind)
    {
      hide WellFormed, ValidOrder, AdvanceTo, ApplyStep;
      var init := trace[..i];
      assert trace[..i + 1] == init + [trace[i]];
      ReplaySnoc(Metadata(), order, init, trace[i]);
    }

    /** The replay has come as far as `o` says. */
    ghost predicate ReplayedTo(trace: seq<Step>, i: nat, v: Locals)
      requires i <= |trace| && TimeSorted(trace)
      reads this`inFlightPackets, errorTracker, nodes.Values, links.Values
    {
      Laid() && ReplayTrace(Metadata(), order, trace[..i]) == Running(View(v))
    }

    method ReplayNext(trace: seq<Step>, i: nat, v: Locals) returns (fatal: Option<FatalError>, v1: Locals)
      requires TimeSorted(trace) && i < |trace| && ReplayedTo(trace, i, v)
      modifies this`inFlightPackets, errorTracker, nodes.Values, links.Values
      ensures fatal.None? ==> ReplayedTo(trace, i + 1, v1)
      ensures fatal.Some? ==>
        ReplayTrace(Metadata(), order, trace[..i + 1]) == Failed(fatal.value, errorTracker.nonFatalErrors)
    {
      hide WellFormed, NodeViews, LinkViews, ReplayTrace, AdvanceTo, ApplyStep, ValidOrder;
      NextReplays(trace, i, View(v));
      v1 := Advance(trace[i].time, v);
      fatal, v1 := Apply(trace[i].kind, trace[i].time, v1);
    }

    /** The final check, and the report. */
    method Conclude(v: Locals) returns (r: Report)
      requires Valid(v)
      modifies errorTracker, nodes.Values
      ensures r == ReportOf(Running(Finish(Metadata(), order, old(View(v)))))
    {
      hide WellFormed, NodeViews, LinkViews, CheckUsage, ValidOrder, StatsOfNode, StatsOfLinks;
      CheckKeepsNodes(Metadata(), order, View(v));
      if v.lastUsageUpdate != Some(v.lastStepTime) {
        CheckBuffers(v);
      }
      var nodeStats, linkStats := Stats(v);
      r := Verified(nodeStats, linkStats, errorTracker.nonFatalErrors);
    }

    lemma ReplayedAll(trace: seq<Step>, v: Locals)
      requires TimeSorted(trace) && ReplayedTo(trace, |trace|, v)
      ensures Valid(v) && Verdict(Metadata(), order, trace) == Running(Finish(Metadata(), order, View(v)))
    {
      hide ReplayTrace, WellFormed, ValidOrder, View, Finish;
      assert trace[..|trace|] == trace;
    }

    lemma ReplayFailed(trace: seq<Step>, k: nat, fatal: FatalError, errors: seq<NonFatalError>)
      requires Laid() && TimeSorted(trace) && k <= |trace|
      requires ReplayTrace(Metadata(), order, trace[..k]) == Failed(fatal, errors)
      ensures ReportOf(Verdict(Metadata(), order, trace)) == Invalid(fatal, errors)
    {
      hide ReplayTrace;
      FailureStays(Metadata(), order, trace, k);
    }

    lemma ReplayedNone(trace: seq<Step>, v: Locals)
      requires Laid() && View(v) == InitialState(Metadata()) && TimeSorted(trace)
      ensures ReplayedTo(trace, 0, v)
    {
      hide View;
      assert trace[..0] == [];
      StartsReplay(v);
    }

    /** The verdict on the steps is the one that the fold over the trace defines. */
    method Verify() returns (r: Report)
      requires Laid() && View(Locals(map[], 0, None)) == InitialState(Metadata()) && TimeSorted(steps)
      modifies this, errorTracker, nodes.Values, links.Values
      ensures r == ReportOf(Verdict(Metadata(), order, old(steps)))
    {
      var trace := steps;
      var v := Locals(map[], 0, None);
      ReplayedNone(trace, v);
      hide Laid, View, ReplayTrace, InitialState, Finish, ReplayedTo, Valid, ReportOf, Verdict;
      steps := [];
      for i := 0 to |trace|
        invariant ReplayedTo(trace, i, v)
      {
        var fatal;
        fatal, v := ReplayNext(trace, i, v);
        if fatal.Some? {
          ReplayFailed(trace, i + 1, fatal.value, errorTracker.nonFatalErrors);
          return Invalid(fatal.value, errorTracker.nonFatalErrors);
        }
      }
      ReplayedAll(trace, v);
      r := Conclude(v);
    }
  }

  lemma CheckKeepsNodes(meta: Meta, order: seq<NodeId>, st: ReplayState)
    requires ValidOrder(meta, order) && WellFormed(meta, st)
    ensures CheckUsage(meta, order, st).nodes.Keys == st.nodes.Keys == meta.bufferSizes.Keys
  {
  }

  /** A fatal error ends the replay, whatever comes after it. */
  lemma {:induction false} FailureStays(meta: Meta, order: seq<NodeId>, trace: seq<Step>, k: nat)
    requires ValidOrder(meta, order) && TimeSorted(trace) && k <= |trace|
    requires ReplayTrace(meta, order, trace[..k]).Failed?
    ensures ReplayTrace(meta, order, trace) == ReplayTrace(meta, order, trace[..k])
    decreases |trace|
  {
    if k == |trace| {
      assert trace[..k] == trace;
    } else {
      assert trace[..|trace| - 1][..k] == trace[..k];
      FailureStays(meta, order, trace[..|trace| - 1], k);
    }
  }

  method FreshNodes(ids: set<NodeId>, tracker: ErrorTracker) returns (nodes: map<NodeId, ReplayedNode>)
    ensures nodes.Keys == ids
    ensures forall m, n :: m in nodes && n in nodes && m != n ==> nodes[m] != nodes[n]
    ensures forall n :: n in nodes ==>
      fresh(nodes[n]) && nodes[n].id == n && nodes[n].errorTracker == tracker && nodes[n].View() == FRESH_NODE
  {
    nodes := map[];
    var pending := ids;
    while pending != {}
      invariant pending <= ids && nodes.Keys == ids - pending
      invariant forall m, n :: m in nodes && n in nodes && m != n ==> nodes[m] != nodes[n]
      invariant forall n :: n in nodes ==>
        fresh(nodes[n]) && nodes[n].id == n && nodes[n].errorTracker == tracker && nodes[n].View() == FRESH_NODE
      decreases |pending|
    {
      var n :| n in pending;
      var node := new ReplayedNode(n, tracker);
      nodes := nodes[n := node];
      pending := pending - {n};
    }
  }

  method FreshLinks(ids: set<LinkId>) returns (links: map<LinkId, ReplayedLink>)
    ensures links.Keys == ids
    ensures forall k, l :: k in links && l in links && k != l ==> links[k] != links[l]
    ensures forall l :: l in links ==> fresh(links[l]) && links[l].View() == FRESH_LINK
  {
    links := map[];
    var pending := ids;
    while pending != {}
      invariant pending <= ids && links.Keys == ids - pending
      invariant forall k, l :: k in links && l in links && k != l ==> links[k] != links[l]
      invariant forall l :: l in links ==> fresh(links[l]) && links[l].View() == FRESH_LINK
      decreases |pending|
    {
      var l :| l in pending;
      var link := new ReplayedLink();
      links := links[l := link];
      pending := pending - {l};
    }
  }

  lemma TakesFlight(meta: Meta, st: ReplayState, t: Time, k: StepKind, p: HeldPacket)
    requires WellFormed(meta, st) && k.PacketInTransit? && k.link in meta.links
    ensures SendOnLink(meta, st, t, k, p).inFlight == st.inFlight[k.packet := InFlight(p.size, t, p.extraDelay, k.link)]
  {
  }

  lemma SortingSortedSteps(steps: seq<Step>)
    ensures SortedBy(steps, StepTime) ==> SortBy(steps, StepTime) == steps
    ensures TimeSorted(SortBy(steps, StepTime))
  {
    SortByIsStableSort(steps, StepTime, 0);
    TimeSortedIs(SortBy(steps, StepTime));
    if SortedBy(steps, StepTime) {
      SortingSortedIsIdentity(steps, StepTime);
    }
  }

  lemma TimeSortedIs(steps: seq<Step>)
    ensures SortedBy(steps, StepTime) <==> TimeSorted(steps)
  {
    if TimeSorted(steps) {
      forall i, j | 0 <= i < j < |steps|
        ensures StepTime(steps[i]) <= StepTime(steps[j])
      {
      }
    } else {
      var i, j :| 0 <= i < j < |steps| && steps[j].time < steps[i].time;
      assert StepTime(steps[j]) < StepTime(steps[i]);
    }
  }

  /** Verifying a trace, in whatever order its steps are given: the verdict is that on the sorted trace. */
  method VerifyTrace(steps: seq<Step>, meta: Meta, order: seq<NodeId>) returns (r: Report)
    requires ValidOrder(meta, order)
    ensures TimeSorted(SortBy(steps, StepTime))
    ensures r == ReportOf(Verdict(meta, order, SortBy(steps, StepTime)))
  {
    hide SortBy, Verdict, ReportOf, InitialState;
    var verifier := new SimulationVerifier(steps, meta, order);
    r := verifier.Verify();
  }
}
