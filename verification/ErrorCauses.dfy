/** What in a trace causes an error that the verifier tracks, whoever emitted the trace. */
module ErrorCauses {
  import opened Types
  import opened BandwidthWindow
  import opened NodeReplay
  import opened Replay
  import opened BufferCheck
  import opened ReplayTotals
  import opened TraceFlights
  import opened TraceHoldings

  // ----- Nodes that are down -----

  predicate SetsStatus(k: StepKind, n: NodeId) {
    k.NetworkEvent? && k.nodeEvent.Some? && k.nodeEvent.value.node == n && k.nodeEvent.value.status.Some?
  }

  /** The status that the last event of the trace to set one gave the node. */
  function LastStatus(trace: seq<Step>, n: NodeId): Option<UpDown> {
    if trace == [] then None
    else
      var k := trace[|trace| - 1].kind;
      if SetsStatus(k, n) then k.nodeEvent.value.status else LastStatus(trace[..|trace| - 1], n)
  }

  predicate DownAfter(trace: seq<Step>, n: NodeId) {
    LastStatus(trace, n) == Some(GoDown)
  }

  /** The record has the node up unless the step sets its status, and then what the step says. */
  lemma StepSetsStatus(meta: Meta, st: ReplayState, t: Time, k: StepKind, n: NodeId)
    requires WellFormed(meta, st) && st.lastStepTime == t && ApplyStep(meta, st, t, k).Running? && n in st.nodes
    ensures var st1 := ApplyStep(meta, st, t, k).st;
      n in st1.nodes
      && (st1.nodes[n].up <==> if SetsStatus(k, n) then k.nodeEvent.value.status.value.GoUp? else st.nodes[n].up)
  {
    hide SumSizes, SumBits, Tallied, PacketSent, UsedBps, ArrivalErrors;
    if IsNodeStep(k) && k.node == n {
      CallKeepsStatus(st.nodes[n], t, k);
    }
  }

  lemma CallKeepsStatus(view: NodeView, t: Time, k: StepKind)
    requires Tallied(view) && IsNodeStep(k)
    ensures var r := NodeStep(view, t, k); r.NodeOk? ==> r.node.up == view.up
  {
    hide SumSizes;
  }

  lemma AdvanceKeepsStatus(meta: Meta, order: seq<NodeId>, st: ReplayState, t: Time, n: NodeId)
    requires ValidOrder(meta, order) && WellFormed(meta, st) && st.lastStepTime <= t && n in st.nodes
    ensures var st1 := AdvanceTo(meta, order, st, t); n in st1.nodes && st1.nodes[n].up == st.nodes[n].up
  {
    hide SumSizes, SumBits;
  }

  lemma {:induction false} StatusFollowsTrace(meta: Meta, order: seq<NodeId>, trace: seq<Step>, n: NodeId)
    requires ValidOrder(meta, order) && TimeSorted(trace) && ReplayTrace(meta, order, trace).Running?
    requires n in meta.bufferSizes
    ensures n in ReplayTrace(meta, order, trace).st.nodes
    ensures ReplayTrace(meta, order, trace).st.nodes[n].up <==> !DownAfter(trace, n)
  {
    hide WellFormed, AdvanceTo, ApplyStep, ValidOrder, InitialState;
    if trace == [] {
      StartsUp(meta, n);
    } else {
      LastStep(meta, order, trace);
      hide ReplayTrace;
      var init, step := trace[..|trace| - 1], trace[|trace| - 1];
      StatusFollowsTrace(meta, order, init, n);
      var st := ReplayTrace(meta, order, init).st;
      AdvanceKeepsStatus(meta, order, st, step.time, n);
      StepSetsStatus(meta, AdvanceTo(meta, order, st, step.time), step.time, step.kind, n);
      assert trace == init + [step];
    }
  }

  lemma StartsUp(meta: Meta, n: NodeId)
    requires n in meta.bufferSizes
    ensures n in InitialState(meta).nodes && InitialState(meta).nodes[n].up
  {
  }

  // ----- What one step draws -----

  lemma AppendIn(a: seq<NonFatalError>, b: seq<NonFatalError>, e: NonFatalError)
    ensures e in a + b <==> e in a || e in b
  {
  }

  predicate Sends(k: StepKind, n: NodeId, id: PacketId) {
    k.PacketInTransit? && k.node == n && k.packet == id
  }

  /** The step takes a packet off a link that had a Down update when the packet was sent, or later. */
  predicate LandsOffline(st: ReplayState, k: StepKind, n: NodeId, l: LinkId, sent: Time, lastDown: Time) {
    && k.PacketInNode? && k.node == n && k.packet in st.inFlight
    && st.inFlight[k.packet].link == l && st.inFlight[k.packet].sentAt == sent
    && l in st.links && st.links[l].lastDown == Some(lastDown) && sent <= lastDown
  }

  /** The step is a send after which the link's window holds more than its bandwidth allows. */
  predicate Overloads(meta: Meta, st: ReplayState, t: Time, k: StepKind, l: LinkId, most: nat, observed: nat) {
    && k.PacketInTransit? && k.link == l && l in meta.links && l in st.links && most == meta.links[l].bandwidthBps
    && k.node in st.nodes && k.packet in st.nodes[k.node].packets
    && observed == UsedBps(PacketSent(st.links[l], t, st.nodes[k.node].packets[k.packet].size, most), most)
    && most < observed
  }

  /** The packet that the step takes off a link, as the verifier knows it from its send. */
  predicate TakesOff(st: ReplayState, k: StepKind, n: NodeId, l: LinkId) {
    k.PacketInNode? && k.node == n && k.packet in st.inFlight && st.inFlight[k.packet].link == l
  }

  /** All errors but those of the end-of-instant check are drawn by single steps. */
  predicate OfStep(e: NonFatalError) {
    !e.NodeExceedsBufferSize?
  }

  predicate Draws(meta: Meta, st: ReplayState, t: Time, k: StepKind, e: NonFatalError) {
    match e
    case NodeExceedsBufferSize(_, _, _) => false
    case NodeDownPacketSend(n, id) => Sends(k, n, id) && n in st.nodes && !st.nodes[n].up
    case NodeDownPacketReceive(n, id) => PutsIn(st.inFlight.Keys, k, n, id) && n in st.nodes && !st.nodes[n].up
    case NodeUpPacketDroppedOnArrival(n, id) =>
      && k.PacketInNode? && k.droppedOnArrival && k.node == n && k.packet == id && id in st.inFlight
      && n in st.nodes && st.nodes[n].up
    case PacketSurvivedBufferCorruption(n, id) =>
      && Sends(k, n, id) && n in st.nodes && id in st.nodes[n].packets
      && st.nodes[n].lastBufferClear.Some? && st.nodes[n].packets[id].arrivedAt < st.nodes[n].lastBufferClear.value
    case PacketCreatedByRouterNode(n, id) =>
      k.PacketInNode? && k.node == n && k.packet == id && id !in st.inFlight && n !in meta.hosts
    case MissingLostPacket(id) => k.PacketLostInTransit? && k.packet == id && id !in st.inFlight
    case OfflinePacketSend(n, l) => k.PacketInTransit? && k.node == n && k.link == l && l in st.links && !st.links[l].up
    case DisconnectedPacketSend(n, l) =>
      k.PacketInTransit? && k.node == n && k.link == l && l in meta.links && n != meta.links[l].source
    case DisconnectedPacketReceive(n, l) => TakesOff(st, k, n, l) && l in meta.links && n != meta.links[l].target
    case TooFastPacketReceive(n, l) =>
      && TakesOff(st, k, n, l) && l in meta.links
      && t < st.inFlight[k.packet].sentAt + meta.links[l].delay + st.inFlight[k.packet].extraDelay
    case OfflinePacketReceive(n, l, sent, lastDown) => LandsOffline(st, k, n, l, sent, lastDown)
    case LinkBandwidthExceeded(n, l, id, most, observed) =>
      Sends(k, n, id) && Overloads(meta, st, t, k, l, most, observed)
  }

  // ----- Arrivals -----

  /** The errors that the verifier draws for a packet off a link, before the node gets it. */
  predicate ArrivalDraws(meta: Meta, st: ReplayState, f: InFlight, n: NodeId, t: Time, e: NonFatalError)
    requires f.link in meta.links && f.link in st.links
  {
    match e
    case DisconnectedPacketReceive(m, l) => m == n && l == f.link && n != meta.links[l].target
    case TooFastPacketReceive(m, l) => m == n && l == f.link && t < f.sentAt + meta.links[l].delay + f.extraDelay
    case OfflinePacketReceive(m, l, sent, lastDown) =>
      m == n && l == f.link && sent == f.sentAt && st.links[l].lastDown == Some(lastDown) && sent <= lastDown
    case _ => false
  }

  lemma ArrivalErrorsAre(meta: Meta, st: ReplayState, f: InFlight, n: NodeId, t: Time, e: NonFatalError)
    requires WellFormed(meta, st) && f.link in meta.links && f.sentAt <= t
    ensures f.link in st.links && (e in ArrivalErrors(meta, st, f, n, t) <==> ArrivalDraws(meta, st, f, n, t, e))
  {
    hide SumSizes, SumBits;
  }

  lemma AddingTracks(view: NodeView, k: StepKind, t: Time, e: NonFatalError)
    requires k.PacketInNode?
    ensures var r := Received(view, k.node, k.packet, k.number, k.size, k.droppedOnArrival, t);
      r.NodeOk? ==>
        (e in r.errors <==>
          (!view.up && !k.droppedOnArrival && e == NodeDownPacketReceive(k.node, k.packet))
          || (view.up && k.droppedOnArrival && e == NodeUpPacketDroppedOnArrival(k.node, k.packet)))
    ensures var r := Created(view, k.node, k.packet, k.size, t);
      r.NodeOk? ==> (e in r.errors <==> !view.up && e == NodeDownPacketReceive(k.node, k.packet))
  {
  }

  lemma LandingTracks(meta: Meta, st: ReplayState, t: Time, k: StepKind, e: NonFatalError)
    requires WellFormed(meta, st) && st.lastStepTime == t && k.PacketInNode? && StepInNode(meta, st, t, k).Running?
    requires k.packet in st.inFlight
    ensures e in StepInNode(meta, st, t, k).st.errors <==> e in st.errors || Draws(meta, st, t, k, e)
  {
    hide Received, Created, ArrivalErrors, Tallied, SumBits;
    AddingTracks(st.nodes[k.node], k, t, e);
    var f := st.inFlight[k.packet];
    ArrivalErrorsAre(meta, st, f, k.node, t, e);
    hide WellFormed;
    var received := Received(st.nodes[k.node], k.node, k.packet, k.number, k.size, k.droppedOnArrival, t);
    AppendIn(st.errors, ArrivalErrors(meta, st, f, k.node, t), e);
    AppendIn(st.errors + ArrivalErrors(meta, st, f, k.node, t), received.errors, e);
  }

  lemma CreationDraws(meta: Meta, st: ReplayState, t: Time, k: StepKind, e: NonFatalError)
    requires k.PacketInNode? && k.packet !in st.inFlight && k.node in st.nodes
    ensures Draws(meta, st, t, k, e) <==>
      || (k.node !in meta.hosts && e == PacketCreatedByRouterNode(k.node, k.packet))
      || (!st.nodes[k.node].up && e == NodeDownPacketReceive(k.node, k.packet))
  {
    hide PacketSent, UsedBps;
  }

  lemma CreationTracks(meta: Meta, st: ReplayState, t: Time, k: StepKind, e: NonFatalError)
    requires WellFormed(meta, st) && st.lastStepTime == t && k.PacketInNode? && StepInNode(meta, st, t, k).Running?
    requires k.packet !in st.inFlight
    ensures e in StepInNode(meta, st, t, k).st.errors <==> e in st.errors || Draws(meta, st, t, k, e)
  {
    hide Received, Created, ArrivalErrors, WellFormed, Draws;
    CreationDraws(meta, st, t, k, e);
    AddingTracks(st.nodes[k.node], k, t, e);
    var created := Created(st.nodes[k.node], k.node, k.packet, k.size, t);
    var first: seq<NonFatalError> := if k.node in meta.hosts then [] else [PacketCreatedByRouterNode(k.node, k.packet)];
    AppendIn(st.errors, first, e);
    AppendIn(st.errors + first, created.errors, e);
  }

  lemma ArrivalTracks(meta: Meta, st: ReplayState, t: Time, k: StepKind, e: NonFatalError)
    requires WellFormed(meta, st) && st.lastStepTime == t && k.PacketInNode? && StepInNode(meta, st, t, k).Running?
    ensures e in StepInNode(meta, st, t, k).st.errors <==> e in st.errors || Draws(meta, st, t, k, e)
  {
    hide StepInNode, Draws, WellFormed;
    if k.packet in st.inFlight {
      LandingTracks(meta, st, t, k, e);
    } else {
      CreationTracks(meta, st, t, k, e);
    }
  }

  lemma NodeStepTracks(meta: Meta, st: ReplayState, t: Time, k: StepKind, e: NonFatalError)
    requires IsNodeStep(k) && k.node in st.nodes && Tallied(st.nodes[k.node])
    ensures var r := NodeStep(st.nodes[k.node], t, k); r.NodeOk? ==> (e in r.errors <==> Draws(meta, st, t, k, e))
  {
    hide SumSizes;
  }

  // ----- Sends -----

  /** The errors that a node draws when it lets go of a packet. */
  predicate SentDraws(view: NodeView, n: NodeId, id: PacketId, e: NonFatalError) {
    match e
    case NodeDownPacketSend(m, p) => m == n && p == id && !view.up
    case PacketSurvivedBufferCorruption(m, p) =>
      && m == n && p == id && id in view.packets
      && view.lastBufferClear.Some? && view.packets[id].arrivedAt < view.lastBufferClear.value
    case _ => false
  }

  lemma SentTracks(view: NodeView, n: NodeId, id: PacketId, e: NonFatalError)
    requires Tallied(view)
    ensures var r := Sent(view, n, id);
      r.NodeOk? ==> id in view.packets && (e in r.errors <==> SentDraws(view, n, id, e))
  {
    hide SumSizes;
  }

  /** The errors that the verifier draws when a link takes a packet. */
  predicate LinkDraws(meta: Meta, links: map<LinkId, LinkView>, t: Time, k: StepKind, size: nat, e: NonFatalError)
    requires k.PacketInTransit? && k.link in meta.links && k.link in links
  {
    match e
    case DisconnectedPacketSend(n, l) => n == k.node && l == k.link && n != meta.links[l].source
    case OfflinePacketSend(n, l) => n == k.node && l == k.link && !links[l].up
    case LinkBandwidthExceeded(n, l, id, most, observed) =>
      && n == k.node && l == k.link && id == k.packet && most == meta.links[l].bandwidthBps && most < observed
      && observed == UsedBps(PacketSent(links[l], t, size, most), most)
    case _ => false
  }

  lemma LinkTracks(meta: Meta, st: ReplayState, t: Time, k: StepKind, p: HeldPacket, e: NonFatalError)
    requires WellFormed(meta, st) && k.PacketInTransit? && k.link in meta.links
    ensures k.link in st.links
    ensures e in SendOnLink(meta, st, t, k, p).errors <==> e in st.errors || LinkDraws(meta, st.links, t, k, p.size, e)
  {
    hide SumSizes, SumBits, PacketSent, UsedBps, Tallied;
  }

  lemma SendDraws(meta: Meta, st: ReplayState, t: Time, k: StepKind, e: NonFatalError)
    requires k.PacketInTransit? && k.node in st.nodes && k.packet in st.nodes[k.node].packets
    requires k.link in meta.links && k.link in st.links
    ensures Draws(meta, st, t, k, e) <==>
      || SentDraws(st.nodes[k.node], k.node, k.packet, e)
      || LinkDraws(meta, st.links, t, k, st.nodes[k.node].packets[k.packet].size, e)
  {
    hide PacketSent, UsedBps;
  }

  /** The two parts of a send: the node lets go of the packet, and the link takes it. */
  lemma SendIs(meta: Meta, st: ReplayState, t: Time, k: StepKind)
    requires WellFormed(meta, st) && st.lastStepTime == t && k.PacketInTransit? && StepInTransit(meta, st, t, k).Running?
    ensures k.node in st.nodes && k.link in meta.links && Tallied(st.nodes[k.node])
    ensures k.packet in st.nodes[k.node].packets
    ensures var r := Sent(st.nodes[k.node], k.node, k.packet);
      && r.NodeOk? && WellFormed(meta, WithNode(st, k.node, r).st)
      && StepInTransit(meta, st, t, k).st
         == SendOnLink(meta, WithNode(st, k.node, r).st, t, k, st.nodes[k.node].packets[k.packet])
  {
    assert k.node in st.nodes && Tallied(st.nodes[k.node]);
    hide WellFormed, Tallied, SendOnLink;
    SentTallies(st.nodes[k.node], k.node, k.packet);
    hide Sent;
    WithNodePreserves(meta, st, k.node, Sent(st.nodes[k.node], k.node, k.packet));
  }

  lemma SentTallies(view: NodeView, n: NodeId, id: PacketId)
    requires Tallied(view)
    ensures var r := Sent(view, n, id); r.NodeOk? ==> Tallied(r.node) && id in view.packets
  {
    if id in view.packets {
      SumSizesRemove(view.packets, id);
    }
    hide SumSizes;
  }

  lemma SendTracks(meta: Meta, st: ReplayState, t: Time, k: StepKind, e: NonFatalError)
    requires WellFormed(meta, st) && st.lastStepTime == t && k.PacketInTransit?
    requires StepInTransit(meta, st, t, k).Running?
    ensures e in StepInTransit(meta, st, t, k).st.errors <==> e in st.errors || Draws(meta, st, t, k, e)
  {
    hide WellFormed, Tallied, StepInTransit, Sent, SendOnLink, SentDraws, LinkDraws, Draws;
    SendIs(meta, st, t, k);
    var r := Sent(st.nodes[k.node], k.node, k.packet);
    SentTracks(st.nodes[k.node], k.node, k.packet, e);
    AppendIn(st.errors, r.errors, e);
    LinkTracks(meta, WithNode(st, k.node, r).st, t, k, st.nodes[k.node].packets[k.packet], e);
    SendDraws(meta, st, t, k, e);
  }

  lemma StepTracks(meta: Meta, st: ReplayState, t: Time, k: StepKind, e: NonFatalError)
    requires WellFormed(meta, st) && st.lastStepTime == t && ApplyStep(meta, st, t, k).Running?
    ensures e in ApplyStep(meta, st, t, k).st.errors <==> e in st.errors || Draws(meta, st, t, k, e)
  {
    hide StepInNode, StepInTransit, NodeStep, SumSizes, SumBits;
    if k.PacketInNode? {
      hide Draws;
      ArrivalTracks(meta, st, t, k, e);
    } else if k.PacketInTransit? {
      hide Draws;
      SendTracks(meta, st, t, k, e);
    } else if IsNodeStep(k) {
      hide Draws;
      AppendIn(st.errors, NodeStep(st.nodes[k.node], t, k).errors, e);
      NodeStepTracks(meta, st, t, k, e);
    }
  }

  // ----- What all the steps draw -----

  /** Step `k` draws the error, in the state that the steps before it led to. */
  ghost predicate DrawnAt(meta: Meta, order: seq<NodeId>, trace: seq<Step>, k: nat, e: NonFatalError)
    requires ValidOrder(meta, order) && TimeSorted(trace)
  {
    && k < |trace| && ReplayTrace(meta, order, trace[..k]).Running?
    && var st := ReplayTrace(meta, order, trace[..k]).st;
       st.lastStepTime <= trace[k].time
       && Draws(meta, AdvanceTo(meta, order, st, trace[k].time), trace[k].time, trace[k].kind, e)
  }

  lemma DrawnSnoc(meta: Meta, order: seq<NodeId>, init: seq<Step>, trace: seq<Step>, e: NonFatalError)
    requires ValidOrder(meta, order) && TimeSorted(trace) && TimeSorted(init)
    requires trace != [] && init == trace[..|trace| - 1]
    ensures (exists k :: DrawnAt(meta, order, trace, k, e)) <==>
      (exists k :: DrawnAt(meta, order, init, k, e)) || DrawnAt(meta, order, trace, |trace| - 1, e)
  {
    hide ReplayTrace, ValidOrder, AdvanceTo, Draws;
    assert forall k :: 0 <= k < |init| ==> init[..k] == trace[..k];
    if exists k :: DrawnAt(meta, order, init, k, e) {
      var k: nat :| DrawnAt(meta, order, init, k, e);
      assert DrawnAt(meta, order, trace, k, e);
    }
    if exists k :: DrawnAt(meta, order, trace, k, e) {
      var k: nat :| DrawnAt(meta, order, trace, k, e);
      assert k < |init| ==> DrawnAt(meta, order, init, k, e);
    }
  }

  lemma CheckTracksOnlyBuffers(meta: Meta, order: seq<NodeId>, st: ReplayState, e: NonFatalError)
    requires ValidOrder(meta, order) && st.nodes.Keys == meta.bufferSizes.Keys && !e.NodeExceedsBufferSize?
    ensures e in CheckUsage(meta, order, st).errors <==> e in st.errors
  {
    OrderCovers(meta, order);
    hide ValidOrder, UpdateMaxBufferUsage, UpdateMaxUsage;
    CheckBlames(meta, order, st.nodes);
  }

  lemma AdvanceTracksOnlyBuffers(meta: Meta, order: seq<NodeId>, st: ReplayState, t: Time, e: NonFatalError)
    requires ValidOrder(meta, order) && WellFormed(meta, st) && st.lastStepTime <= t && !e.NodeExceedsBufferSize?
    ensures e in AdvanceTo(meta, order, st, t).errors <==> e in st.errors
  {
    NodesKnown(meta, st);
    hide WellFormed, ValidOrder, CheckUsage;
    CheckTracksOnlyBuffers(meta, order, st, e);
  }

  lemma {:induction false} ErrorsAreDrawn(meta: Meta, order: seq<NodeId>, trace: seq<Step>, e: NonFatalError)
    requires ValidOrder(meta, order) && TimeSorted(trace) && ReplayTrace(meta, order, trace).Running? && OfStep(e)
    ensures e in ReplayTrace(meta, order, trace).st.errors <==> exists k :: DrawnAt(meta, order, trace, k, e)
  {
    hide WellFormed, AdvanceTo, ApplyStep, ValidOrder, Draws;
    if trace != [] {
      LastStep(meta, order, trace);
      hide ReplayTrace;
      var init, step := trace[..|trace| - 1], trace[|trace| - 1];
      ErrorsAreDrawn(meta, order, init, e);
      DrawnSnoc(meta, order, init, trace, e);
      var st := ReplayTrace(meta, order, init).st;
      AdvanceTracksOnlyBuffers(meta, order, st, step.time, e);
      StepTracks(meta, AdvanceTo(meta, order, st, step.time), step.time, step.kind, e);
    }
  }

  /** The verdict holds an error of a step exactly if some step draws it. */
  lemma VerdictIsDrawn(meta: Meta, order: seq<NodeId>, trace: seq<Step>, e: NonFatalError)
    requires ValidOrder(meta, order) && TimeSorted(trace) && Verdict(meta, order, trace).Running? && OfStep(e)
    ensures ReplayTrace(meta, order, trace).Running?
    ensures e in Verdict(meta, order, trace).st.errors <==> exists k :: DrawnAt(meta, order, trace, k, e)
  {
    hide ReplayTrace, CheckUsage, ValidOrder, DrawnAt, WellFormed;
    var st := ReplayTrace(meta, order, trace).st;
    VerdictChecks(meta, order, trace);
    NodesKnown(meta, st);
    ErrorsAreDrawn(meta, order, trace, e);
    CheckTracksOnlyBuffers(meta, order, st, e);
  }

  lemma {:induction false} PrefixReplays(meta: Meta, order: seq<NodeId>, trace: seq<Step>, k: nat)
    requires ValidOrder(meta, order) && TimeSorted(trace) && ReplayTrace(meta, order, trace).Running? && k <= |trace|
    ensures ReplayTrace(meta, order, trace[..k]).Running?
    decreases |trace|
  {
    hide ValidOrder, ReplayTrace;
    if k == |trace| {
      assert trace[..k] == trace;
    } else {
      LastStep(meta, order, trace);
      PrefixReplays(meta, order, trace[..|trace| - 1], k);
      assert trace[..|trace| - 1][..k] == trace[..k];
    }
  }

  // ----- Sends and arrivals while down -----

  /** Step `k` sends the packet from the node, whose last status event before was a Down. */
  predicate SentWhileDown(trace: seq<Step>, k: nat, n: NodeId, id: PacketId) {
    k < |trace| && Sends(trace[k].kind, n, id) && DownAfter(trace[..k], n)
  }

  /** Step `k` puts the packet into the node, whose last status event before was a Down. */
  predicate AddedWhileDown(trace: seq<Step>, k: nat, n: NodeId, id: PacketId) {
    k < |trace| && PutsIn(Flights(trace[..k]).Keys, trace[k].kind, n, id) && DownAfter(trace[..k], n)
  }

  lemma DownDrawn(meta: Meta, order: seq<NodeId>, trace: seq<Step>, k: nat, n: NodeId, id: PacketId)
    requires ValidOrder(meta, order) && TimeSorted(trace) && ReplayTrace(meta, order, trace).Running?
    requires n in meta.bufferSizes
    ensures DrawnAt(meta, order, trace, k, NodeDownPacketSend(n, id)) <==> SentWhileDown(trace, k, n, id)
    ensures DrawnAt(meta, order, trace, k, NodeDownPacketReceive(n, id)) <==> AddedWhileDown(trace, k, n, id)
  {
    hide ReplayTrace, ValidOrder, WellFormed, AdvanceTo, DownAfter, Sends, PutsIn, Flights;
    if k < |trace| {
      PrefixReplays(meta, order, trace, k);
      var st := ReplayTrace(meta, order, trace[..k]).st;
      StatusFollowsTrace(meta, order, trace[..k], n);
      AdvanceKeepsStatus(meta, order, st, trace[k].time, n);
      FlightsFollowTrace(meta, order, trace[..k]);
      AdvanceKeepsFlights(meta, order, st, trace[k].time);
      assert FlightsOf(st.inFlight).Keys == st.inFlight.Keys;
    }
  }

  /**
   * On every replayed trace: a packet is reported as sent from a node that was down exactly if some
   * step sends it from the node, and the last event before that step to set the node's status was a Down.
   */
  lemma DownSendsReportedExactly(meta: Meta, order: seq<NodeId>, trace: seq<Step>, n: NodeId, id: PacketId)
    requires ValidOrder(meta, order) && TimeSorted(trace) && Verdict(meta, order, trace).Running?
    requires n in meta.bufferSizes
    ensures NodeDownPacketSend(n, id) in Verdict(meta, order, trace).st.errors <==>
      exists k :: SentWhileDown(trace, k, n, id)
  {
    hide ReplayTrace, Verdict, ValidOrder, DrawnAt, SentWhileDown, AddedWhileDown;
    VerdictIsDrawn(meta, order, trace, NodeDownPacketSend(n, id));
    forall k: nat
      ensures DrawnAt(meta, order, trace, k, NodeDownPacketSend(n, id)) <==> SentWhileDown(trace, k, n, id)
    {
      DownDrawn(meta, order, trace, k, n, id);
    }
  }

  /** And as received by a node that was down exactly if some step puts it there after such a Down. */
  lemma DownReceiptsReportedExactly(meta: Meta, order: seq<NodeId>, trace: seq<Step>, n: NodeId, id: PacketId)
    requires ValidOrder(meta, order) && TimeSorted(trace) && Verdict(meta, order, trace).Running?
    requires n in meta.bufferSizes
    ensures NodeDownPacketReceive(n, id) in Verdict(meta, order, trace).st.errors <==>
      exists k :: AddedWhileDown(trace, k, n, id)
  {
    hide ReplayTrace, Verdict, ValidOrder, DrawnAt, SentWhileDown, AddedWhileDown;
    VerdictIsDrawn(meta, order, trace, NodeDownPacketReceive(n, id));
    forall k: nat
      ensures DrawnAt(meta, order, trace, k, NodeDownPacketReceive(n, id)) <==> AddedWhileDown(trace, k, n, id)
    {
      DownDrawn(meta, order, trace, k, n, id);
    }
  }

  // ----- Buffers that were exceeded -----

  /** The node had this usage at the end of some instant among the given ones, or it is nothing. */
  ghost predicate WasUsage(meta: Meta, order: seq<NodeId>, trace: seq<Step>, ends: set<nat>, n: NodeId, most: nat)
    requires ValidOrder(meta, order) && TimeSorted(trace) && forall i :: i in ends ==> i <= |trace|
  {
    most == 0 || exists i :: i in ends && UsageAfter(meta, order, trace, i, n) == most
  }

  /** A buffer error with true figures: the node's size, and a larger usage at the end of an instant. */
  ghost predicate TrueFigures(meta: Meta, order: seq<NodeId>, trace: seq<Step>, ends: set<nat>, e: NonFatalError)
    requires ValidOrder(meta, order) && TimeSorted(trace) && forall i :: i in ends ==> i <= |trace|
    requires e.NodeExceedsBufferSize?
  {
    && e.node in meta.bufferSizes && e.bufferSize == meta.bufferSizes[e.node] && e.bufferSize < e.maxUsage
    && WasUsage(meta, order, trace, ends, e.node, e.maxUsage)
  }

  ghost predicate FiguresTrue(meta: Meta, order: seq<NodeId>, trace: seq<Step>, ends: set<nat>,
                              errors: seq<NonFatalError>, nodes: map<NodeId, NodeView>)
    requires ValidOrder(meta, order) && TimeSorted(trace) && forall i :: i in ends ==> i <= |trace|
  {
    && (forall e :: e in errors && e.NodeExceedsBufferSize? ==> TrueFigures(meta, order, trace, ends, e))
    && (forall n :: n in nodes ==> WasUsage(meta, order, trace, ends, n, nodes[n].maxBufferUsage))
  }

  lemma WasUsageLonger(meta: Meta, order: seq<NodeId>, trace: seq<Step>, step: Step, ends: set<nat>, ends1: set<nat>,
                       n: NodeId, most: nat)
    requires ValidOrder(meta, order) && TimeSorted(trace + [step]) && TimeSorted(trace)
    requires (forall i :: i in ends ==> i <= |trace|) && ends <= ends1 && forall i :: i in ends1 ==> i <= |trace| + 1
    requires WasUsage(meta, order, trace, ends, n, most)
    ensures WasUsage(meta, order, trace + [step], ends1, n, most)
  {
    hide ValidOrder, ReplayTrace;
    if most != 0 {
      var i :| i in ends && UsageAfter(meta, order, trace, i, n) == most;
      assert (trace + [step])[..i] == trace[..i];
      assert i in ends1;
    }
  }

  lemma FiguresLonger(meta: Meta, order: seq<NodeId>, trace: seq<Step>, step: Step, ends: set<nat>, ends1: set<nat>,
                      errors: seq<NonFatalError>, nodes: map<NodeId, NodeView>)
    requires ValidOrder(meta, order) && TimeSorted(trace + [step]) && TimeSorted(trace)
    requires (forall i :: i in ends ==> i <= |trace|) && ends <= ends1 && forall i :: i in ends1 ==> i <= |trace| + 1
    requires FiguresTrue(meta, order, trace, ends, errors, nodes)
    ensures FiguresTrue(meta, order, trace + [step], ends1, errors, nodes)
  {
    hide ValidOrder, WasUsage;
    forall n, most | WasUsage(meta, order, trace, ends, n, most)
      ensures WasUsage(meta, order, trace + [step], ends1, n, most)
    {
      WasUsageLonger(meta, order, trace, step, ends, ends1, n, most);
    }
  }

  lemma UsageIsNow(meta: Meta, order: seq<NodeId>, trace: seq<Step>, ends: set<nat>, st: ReplayState, n: NodeId)
    requires ValidOrder(meta, order) && TimeSorted(trace) && (forall i :: i in ends ==> i <= |trace|) && |trace| in ends
    requires ReplayTrace(meta, order, trace) == Running(st) && n in st.nodes
    requires WasUsage(meta, order, trace, ends, n, st.nodes[n].maxBufferUsage)
    ensures WasUsage(meta, order, trace, ends, n, MaxAfter(st.nodes, n))
  {
    hide ValidOrder, ReplayTrace;
    UsageNow(meta, order, trace, n);
    if st.nodes[n].maxBufferUsage < st.nodes[n].bufferUsage {
      assert |trace| in ends && UsageAfter(meta, order, trace, |trace|, n) == st.nodes[n].bufferUsage;
    }
  }

  lemma CheckedMaxima(meta: Meta, order: seq<NodeId>, st: ReplayState, n: NodeId)
    requires ValidOrder(meta, order) && st.nodes.Keys == meta.bufferSizes.Keys && n in CheckUsage(meta, order, st).nodes
    ensures n in st.nodes
    ensures var most := CheckUsage(meta, order, st).nodes[n].maxBufferUsage;
      most == st.nodes[n].maxBufferUsage || most == MaxAfter(st.nodes, n)
  {
    OrderCovers(meta, order);
    hide ValidOrder;
  }

  lemma CheckedErrorIs(meta: Meta, order: seq<NodeId>, st: ReplayState, e: NonFatalError)
    requires ValidOrder(meta, order) && st.nodes.Keys == meta.bufferSizes.Keys
    requires e in CheckUsage(meta, order, st).errors && e !in st.errors
    ensures exists n :: n in st.nodes && Blames(meta, st.nodes, n, e)
  {
    OrderCovers(meta, order);
    CheckBlames(meta, order, st.nodes);
    hide ValidOrder, UpdateMaxBufferUsage, Blames;
  }

  lemma CheckedFigures(meta: Meta, order: seq<NodeId>, trace: seq<Step>, ends: set<nat>, st: ReplayState)
    requires ValidOrder(meta, order) && TimeSorted(trace) && (forall i :: i in ends ==> i <= |trace|) && |trace| in ends
    requires ReplayTrace(meta, order, trace) == Running(st) && st.nodes.Keys == meta.bufferSizes.Keys
    requires FiguresTrue(meta, order, trace, ends, st.errors, st.nodes)
    ensures var st1 := CheckUsage(meta, order, st); FiguresTrue(meta, order, trace, ends, st1.errors, st1.nodes)
  {
    hide ValidOrder, ReplayTrace, CheckUsage, WasUsage, MaxAfter;
    var st1 := CheckUsage(meta, order, st);
    forall n | n in st1.nodes
      ensures WasUsage(meta, order, trace, ends, n, st1.nodes[n].maxBufferUsage)
    {
      CheckedMaxima(meta, order, st, n);
      UsageIsNow(meta, order, trace, ends, st, n);
    }
    forall e | e in st1.errors && e.NodeExceedsBufferSize?
      ensures TrueFigures(meta, order, trace, ends, e)
    {
      if e !in st.errors {
        CheckedErrorIs(meta, order, st, e);
        var n :| n in st.nodes && Blames(meta, st.nodes, n, e);
        UsageIsNow(meta, order, trace, ends, st, n);
      }
    }
  }

  lemma StepKeepsFigures(meta: Meta, order: seq<NodeId>, trace: seq<Step>, ends: set<nat>, st: ReplayState, t: Time,
                         k: StepKind)
    requires ValidOrder(meta, order) && TimeSorted(trace) && forall i :: i in ends ==> i <= |trace|
    requires WellFormed(meta, st) && st.lastStepTime == t && ApplyStep(meta, st, t, k).Running?
    requires FiguresTrue(meta, order, trace, ends, st.errors, st.nodes)
    ensures var st1 := ApplyStep(meta, st, t, k).st; FiguresTrue(meta, order, trace, ends, st1.errors, st1.nodes)
  {
    hide ValidOrder, ApplyStep, WasUsage, Reported, WellFormed, TrueFigures;
    StepKeepsMaxima(meta, st, t, k);
    forall e | e in ApplyStep(meta, st, t, k).st.errors && e.NodeExceedsBufferSize?
      ensures e in st.errors
    {
      StepTracks(meta, st, t, k, e);
    }
  }

  lemma NoFigures(meta: Meta, order: seq<NodeId>)
    requires ValidOrder(meta, order)
    ensures FiguresTrue(meta, order, [], {}, InitialState(meta).errors, InitialState(meta).nodes)
  {
  }

  lemma {:induction false} FiguresAreTrue(meta: Meta, order: seq<NodeId>, trace: seq<Step>)
    requires ValidOrder(meta, order) && TimeSorted(trace) && ReplayTrace(meta, order, trace).Running?
    ensures forall i :: i in Boundaries(trace) ==> i <= |trace|
    ensures var st := ReplayTrace(meta, order, trace).st;
      FiguresTrue(meta, order, trace, Boundaries(trace), st.errors, st.nodes)
    decreases |trace|
  {
    hide WellFormed, ApplyStep, CheckUsage, ValidOrder, FiguresTrue, InitialState;
    BoundariesInside(trace);
    if trace == [] {
      NoFigures(meta, order);
      assert Boundaries(trace) == {};
    } else {
      hide Boundaries;
      LastStep(meta, order, trace);
      hide ReplayTrace;
      var init, step := trace[..|trace| - 1], trace[|trace| - 1];
      assert trace == init + [step];
      FiguresAreTrue(meta, order, init);
      FiguresAtStep(meta, order, init, step);
      var st1 := AdvanceTo(meta, order, ReplayTrace(meta, order, init).st, step.time);
      StepKeepsFigures(meta, order, trace, Boundaries(trace), st1, step.time, step.kind);
    }
  }

  lemma AdvanceKeepsFigures(meta: Meta, order: seq<NodeId>, init: seq<Step>, ends: set<nat>, ends1: set<nat>,
                            st: ReplayState, t: Time)
    requires ValidOrder(meta, order) && TimeSorted(init) && ReplayTrace(meta, order, init) == Running(st)
    requires WellFormed(meta, st) && st.lastStepTime <= t
    requires ends <= ends1 && (forall i :: i in ends1 ==> i <= |init|) && (t != st.lastStepTime ==> |init| in ends1)
    requires FiguresTrue(meta, order, init, ends, st.errors, st.nodes)
    ensures var st1 := AdvanceTo(meta, order, st, t); FiguresTrue(meta, order, init, ends1, st1.errors, st1.nodes)
  {
    hide CheckUsage, ValidOrder, FiguresTrue, ReplayTrace;
    NodesKnown(meta, st);
    hide WellFormed;
    FiguresWider(meta, order, init, ends, ends1, st.errors, st.nodes);
    if t != st.lastStepTime {
      CheckedFigures(meta, order, init, ends1, st);
    }
  }

  lemma FiguresAtStep(meta: Meta, order: seq<NodeId>, init: seq<Step>, step: Step)
    requires ValidOrder(meta, order) && TimeSorted(init + [step]) && TimeSorted(init)
    requires ReplayTrace(meta, order, init).Running? && LastTime(init) <= step.time
    requires forall i :: i in Boundaries(init) ==> i <= |init|
    requires var st := ReplayTrace(meta, order, init).st;
      FiguresTrue(meta, order, init, Boundaries(init), st.errors, st.nodes)
    ensures forall i :: i in Boundaries(init + [step]) ==> i <= |init| + 1
    ensures var st1 := AdvanceTo(meta, order, ReplayTrace(meta, order, init).st, step.time);
      FiguresTrue(meta, order, init + [step], Boundaries(init + [step]), st1.errors, st1.nodes)
  {
    hide WellFormed, AdvanceTo, ValidOrder, FiguresTrue, Boundaries, ReplayTrace;
    var st := ReplayTrace(meta, order, init).st;
    var ends1 := Boundaries(init + [step]);
    BoundariesSnoc(init, step);
    BoundariesInside(init + [step]);
    AdvanceKeepsFigures(meta, order, init, Boundaries(init), ends1, st, step.time);
    var st1 := AdvanceTo(meta, order, st, step.time);
    FiguresLonger(meta, order, init, step, ends1, ends1, st1.errors, st1.nodes);
  }

  lemma FiguresWider(meta: Meta, order: seq<NodeId>, trace: seq<Step>, ends: set<nat>, ends1: set<nat>,
                     errors: seq<NonFatalError>, nodes: map<NodeId, NodeView>)
    requires ValidOrder(meta, order) && TimeSorted(trace) && ends <= ends1 && forall i :: i in ends1 ==> i <= |trace|
    requires FiguresTrue(meta, order, trace, ends, errors, nodes)
    ensures FiguresTrue(meta, order, trace, ends1, errors, nodes)
  {
    hide ValidOrder, UsageAfter;
  }

  /** The error's figures are the node's size and its usage at the end of some instant of the trace. */
  ghost predicate ExceededAt(meta: Meta, order: seq<NodeId>, trace: seq<Step>, e: NonFatalError, i: nat)
    requires ValidOrder(meta, order) && TimeSorted(trace) && e.NodeExceedsBufferSize?
  {
    && i <= |trace| && EndsInstant(trace, i)
    && e.node in meta.bufferSizes && e.bufferSize == meta.bufferSizes[e.node] && e.bufferSize < e.maxUsage
    && UsageAfter(meta, order, trace, i, e.node) == e.maxUsage
  }

  /** On every replayed trace: a buffer error gives a usage that the node did have at the end of some instant. */
  lemma BufferErrorsAreReal(meta: Meta, order: seq<NodeId>, trace: seq<Step>, e: NonFatalError)
    requires ValidOrder(meta, order) && TimeSorted(trace) && Verdict(meta, order, trace).Running?
    requires e.NodeExceedsBufferSize? && e in Verdict(meta, order, trace).st.errors
    ensures exists i :: ExceededAt(meta, order, trace, e, i)
  {
    hide ReplayTrace, CheckUsage, ValidOrder, WellFormed, Boundaries, UsageAfter;
    var st := ReplayTrace(meta, order, trace).st;
    VerdictChecks(meta, order, trace);
    NodesKnown(meta, st);
    FiguresAreTrue(meta, order, trace);
    var ends := Boundaries(trace) + {|trace|};
    FiguresWider(meta, order, trace, Boundaries(trace), ends, st.errors, st.nodes);
    CheckedFigures(meta, order, trace, ends, st);
    EndsAre(trace);
    assert TrueFigures(meta, order, trace, ends, e);
    var i: nat :| i in ends && UsageAfter(meta, order, trace, i, e.node) == e.maxUsage;
    assert ExceededAt(meta, order, trace, e, i);
  }

  /** Without an event that sets its status, a node was never down. */
  lemma {:induction false} NoEventsNeverDown(trace: seq<Step>, n: NodeId)
    requires forall k :: 0 <= k < |trace| ==> !SetsStatus(trace[k].kind, n)
    ensures !DownAfter(trace, n)
  {
    if trace != [] {
      NoEventsNeverDown(trace[..|trace| - 1], n);
    }
  }
}
