/** The verifier's judgement of a trace, in terms of the trace alone: every error, and every fatal error. */
module TraceJudgement {
  import opened Types
  import opened NodeReplay
  import opened BandwidthWindow
  import opened Replay
  import opened BufferCheck
  import opened ReplayTotals
  import opened TraceFlights
  import opened TraceHoldings
  import opened TraceFacts
  import opened ErrorCauses
  import opened LinkErrors

  // ----- The replay's state before a step, as the trace tells it -----

  ghost predicate NodesKnownBy(before: seq<Step>, st: ReplayState) {
    forall n :: n in st.nodes ==>
      && (st.nodes[n].up <==> !DownAfter(before, n)) && st.nodes[n].packets == HeldIn(before, n)
      && st.nodes[n].lastBufferClear == LastClear(before, n)
  }

  ghost predicate LinksKnownBy(before: seq<Step>, st: ReplayState) {
    forall l :: l in st.links ==>
      (st.links[l].up <==> !LinkDownAfter(before, l)) && st.links[l].lastDown == LastDownOf(before, l)
  }

  ghost predicate FlightsKnownBy(before: seq<Step>, st: ReplayState) {
    && FlightsOf(st.inFlight) == Flights(before)
    && forall id :: id in st.inFlight ==> IsCargo(before, id, st.inFlight[id].size, st.inFlight[id].extraDelay)
  }

  lemma NodesAreKnown(meta: Meta, order: seq<NodeId>, before: seq<Step>, t: Time)
    requires ValidOrder(meta, order) && TimeSorted(before) && ReplayTrace(meta, order, before).Running?
    requires ReplayTrace(meta, order, before).st.lastStepTime <= t
    ensures NodesKnownBy(before, AdvanceTo(meta, order, ReplayTrace(meta, order, before).st, t))
  {
    hide ReplayTrace, ValidOrder, WellFormed, AdvanceTo, DownAfter, HeldIn, LastClear;
    var st := ReplayTrace(meta, order, before).st;
    AdvanceKeepsNodes(meta, order, st, t);
    forall n | n in st.nodes
      ensures var st1 := AdvanceTo(meta, order, st, t);
        && n in st1.nodes && (st1.nodes[n].up <==> !DownAfter(before, n)) && st1.nodes[n].packets == HeldIn(before, n)
        && st1.nodes[n].lastBufferClear == LastClear(before, n)
    {
      StatusFollowsTrace(meta, order, before, n);
      AdvanceKeepsStatus(meta, order, st, t, n);
      HoldingsFollowTrace(meta, order, before, n);
      AdvanceKeepsPackets(meta, order, st, t, n);
      TimesFollowTrace(meta, order, before, n);
      AdvanceKeepsTimes(meta, order, st, t, n);
    }
  }

  lemma LinkKeys(meta: Meta, st: ReplayState)
    requires WellFormed(meta, st)
    ensures st.links.Keys == meta.links.Keys && st.nodes.Keys == meta.bufferSizes.Keys
  {
  }

  lemma LinksAreKnown(meta: Meta, order: seq<NodeId>, before: seq<Step>, t: Time)
    requires ValidOrder(meta, order) && TimeSorted(before) && ReplayTrace(meta, order, before).Running?
    requires ReplayTrace(meta, order, before).st.lastStepTime <= t
    ensures var st1 := AdvanceTo(meta, order, ReplayTrace(meta, order, before).st, t);
      LinksKnownBy(before, st1) && FlightsKnownBy(before, st1)
  {
    hide ReplayTrace, ValidOrder, WellFormed, AdvanceTo, LinkDownAfter, LastDownOf, Flights, IsCargo;
    var st := ReplayTrace(meta, order, before).st;
    LinkKeys(meta, st);
    AdvanceKeepsLinks(meta, order, st, t);
    AdvanceKeepsFlights(meta, order, st, t);
    FlightsFollowTrace(meta, order, before);
    forall l | l in st.links
      ensures (st.links[l].up <==> !LinkDownAfter(before, l)) && st.links[l].lastDown == LastDownOf(before, l)
    {
      LinksFollowTrace(meta, order, before, l);
      DownsFollowTrace(meta, order, before, l);
    }
    forall id | id in st.inFlight
      ensures IsCargo(before, id, st.inFlight[id].size, st.inFlight[id].extraDelay)
    {
      CargoFollowsTrace(meta, order, before, id);
    }
  }

  // ----- Non-fatal errors -----

  /** What the last step sends over a link: the bits of the packet that its node held. */
  function SentAlong(trace: seq<Step>, l: LinkId): seq<Send>
    requires trace != []
  {
    var last := trace[|trace| - 1];
    if last.kind.PacketInTransit? && last.kind.link == l then [Send(last.time, CargoOf(trace, |trace| - 1).size * 8)] else []
  }

  function SendsAlong(trace: seq<Step>, l: LinkId): seq<Send> {
    if trace == [] then [] else SendsAlong(trace[..|trace| - 1], l) + SentAlong(trace, l)
  }

  /** The packet comes off the link into the node. */
  predicate ComesOff(before: seq<Step>, s: StepKind, n: NodeId, l: LinkId) {
    s.PacketInNode? && s.node == n && s.packet in Flights(before) && Flights(before)[s.packet].link == l
  }

  /** It does so sooner than the link's delay, and the packet's own, allow. */
  predicate ComesTooSoon(before: seq<Step>, id: PacketId, t: Time, delay: Time)
    requires id in Flights(before)
  {
    var j := LastSend(before, id);
    && j.Some? && j.value < |before| && before[j.value].kind.PacketInTransit?
    && t < Flights(before)[id].sent + delay + CargoOf(before, j.value).extraDelay
  }

  /** What is wrong with step `k` of the trace: each kind of error that a step can draw. */
  predicate IsFault(meta: Meta, trace: seq<Step>, k: nat, e: NonFatalError)
    requires k < |trace|
  {
    var before, t, s := trace[..k], trace[k].time, trace[k].kind;
    match e
    case NodeExceedsBufferSize(_, _, _) => false
    case NodeDownPacketSend(n, id) => Sends(s, n, id) && n in meta.bufferSizes && DownAfter(before, n)
    case NodeDownPacketReceive(n, id) =>
      PutsIn(Flights(before).Keys, s, n, id) && n in meta.bufferSizes && DownAfter(before, n)
    case NodeUpPacketDroppedOnArrival(n, id) =>
      && s.PacketInNode? && s.node == n && s.packet == id && s.droppedOnArrival && id in Flights(before)
      && n in meta.bufferSizes && !DownAfter(before, n)
    case PacketSurvivedBufferCorruption(n, id) =>
      && Sends(s, n, id) && n in meta.bufferSizes && id in HeldIn(before, n)
      && LastClear(before, n).Some? && HeldIn(before, n)[id].arrivedAt < LastClear(before, n).value
    case PacketCreatedByRouterNode(n, id) =>
      s.PacketInNode? && s.node == n && s.packet == id && id !in Flights(before) && n !in meta.hosts
    case MissingLostPacket(id) => s.PacketLostInTransit? && s.packet == id && id !in Flights(before)
    case OfflinePacketSend(n, l) => s.PacketInTransit? && s.node == n && s.link == l && LinkDownAfter(before, l)
    case DisconnectedPacketSend(n, l) =>
      s.PacketInTransit? && s.node == n && s.link == l && l in meta.links && n != meta.links[l].source
    case DisconnectedPacketReceive(n, l) => ComesOff(before, s, n, l) && l in meta.links && n != meta.links[l].target
    case TooFastPacketReceive(n, l) =>
      ComesOff(before, s, n, l) && l in meta.links && ComesTooSoon(before, s.packet, t, meta.links[l].delay)
    case OfflinePacketReceive(n, l, sent, lastDown) => CameOffline(trace, k, n, l, sent, lastDown)
    case LinkBandwidthExceeded(n, l, id, most, observed) =>
      && Sends(s, n, id) && s.link == l && l in meta.links && most == meta.links[l].bandwidthBps && most < observed
      && IsUsage(SendsAlong(trace[..k + 1], l), most, observed)
  }

  /** A step that was replayed names a node and a link that there are. */
  lemma StepNames(meta: Meta, st: ReplayState, t: Time, k: StepKind)
    requires WellFormed(meta, st) && st.lastStepTime == t && ApplyStep(meta, st, t, k).Running?
    ensures !k.NetworkEvent? && !k.PacketLostInTransit? ==> k.node in st.nodes
    ensures k.PacketInTransit? ==> k.link in meta.links && k.link in st.links && k.packet in st.nodes[k.node].packets
  {
    hide SumSizes, SumBits, Tallied, PacketSent, UsedBps, ArrivalErrors, Created, Received, NodeStep;
    if k.PacketInTransit? {
      SendIs(meta, st, t, k);
    }
  }

  lemma FlightIs(before: seq<Step>, st: ReplayState, id: PacketId)
    requires FlightsKnownBy(before, st)
    ensures id in st.inFlight <==> id in Flights(before)
    ensures id in st.inFlight ==>
      Flights(before)[id] == Flight(st.inFlight[id].link, st.inFlight[id].sentAt)
    ensures st.inFlight.Keys == Flights(before).Keys
    ensures id in st.inFlight ==> var j := LastSend(before, id);
      && j.Some? && j.value < |before| && before[j.value].kind.PacketInTransit?
      && CargoOf(before, j.value).extraDelay == st.inFlight[id].extraDelay
      && CargoOf(before, j.value).size == st.inFlight[id].size
  {
    hide Flights, CargoOf, LastSend;
    assert FlightsOf(st.inFlight).Keys == st.inFlight.Keys;
  }

  /** Errors about a node and what it holds. */
  predicate AboutNode(e: NonFatalError) {
    e.NodeDownPacketSend? || e.NodeDownPacketReceive? || e.NodeUpPacketDroppedOnArrival? || e.MissingLostPacket?
    || e.PacketSurvivedBufferCorruption? || e.PacketCreatedByRouterNode?
  }

  lemma NodeFaultIsDrawn(meta: Meta, trace: seq<Step>, k: nat, st: ReplayState, e: NonFatalError)
    requires k < |trace| && NodesKnownBy(trace[..k], st) && AboutNode(e)
    requires forall id :: id in st.inFlight <==> id in Flights(trace[..k])
    requires st.nodes.Keys == meta.bufferSizes.Keys
    ensures Draws(meta, st, trace[k].time, trace[k].kind, e) <==> IsFault(meta, trace, k, e)
  {
    hide DownAfter, HeldIn, LastClear, LinkDownAfter, LastDownOf, Flights, CargoOf, LastSend, IsUsage, SendsAlong,
      Overloads, TakesOff, LandsOffline, ComesOff, ComesTooSoon, CameOffline;
    assert st.inFlight.Keys == Flights(trace[..k]).Keys;
    var drawn := Draws(meta, st, trace[k].time, trace[k].kind, e);
    match e
    case NodeDownPacketSend(_, _) => assert drawn <==> IsFault(meta, trace, k, e);
    case NodeDownPacketReceive(_, _) => assert drawn <==> IsFault(meta, trace, k, e);
    case _ =>
  }

  predicate OfSending(e: NonFatalError) {
    e.OfflinePacketSend? || e.DisconnectedPacketSend?
  }

  lemma SendFaultIsDrawn(meta: Meta, trace: seq<Step>, k: nat, st: ReplayState, e: NonFatalError)
    requires k < |trace| && LinksKnownBy(trace[..k], st) && OfSending(e)
    requires trace[k].kind.PacketInTransit? ==> trace[k].kind.link in st.links
    ensures Draws(meta, st, trace[k].time, trace[k].kind, e) <==> IsFault(meta, trace, k, e)
  {
    hide DownAfter, HeldIn, LastClear, LinkDownAfter, LastDownOf, Flights, CargoOf, LastSend, IsUsage, SendsAlong,
      Overloads, PutsIn, TakesOff, LandsOffline, ComesOff, ComesTooSoon, CameOffline;
  }

  lemma LandingFaultIsDrawn(meta: Meta, trace: seq<Step>, k: nat, st: ReplayState, e: NonFatalError)
    requires k < |trace| && LinksKnownBy(trace[..k], st) && FlightsKnownBy(trace[..k], st)
    requires st.links.Keys == meta.links.Keys && WellFormed(meta, st)
    requires OfStep(e) && !AboutNode(e) && !OfSending(e) && !e.LinkBandwidthExceeded?
    ensures Draws(meta, st, trace[k].time, trace[k].kind, e) <==> IsFault(meta, trace, k, e)
  {
    hide SumSizes, SumBits, Tallied;
    if trace[k].kind.PacketInNode? {
      FlightIs(trace[..k], st, trace[k].kind.packet);
    }
    hide FlightsKnownBy, DownAfter, HeldIn, LastClear, LinkDownAfter, LastDownOf, Flights, CargoOf, LastSend, IsUsage,
      SendsAlong, Overloads, PutsIn, WellFormed;
  }

  lemma FlightKeys(before: seq<Step>, st: ReplayState)
    requires FlightsKnownBy(before, st)
    ensures forall id :: id in st.inFlight <==> id in Flights(before)
  {
    hide Flights, IsCargo;
    assert FlightsOf(st.inFlight).Keys == st.inFlight.Keys;
  }

  lemma FaultIsDrawn(meta: Meta, trace: seq<Step>, k: nat, st: ReplayState, e: NonFatalError)
    requires k < |trace| && WellFormed(meta, st) && st.lastStepTime == trace[k].time
    requires trace[k].kind.PacketInTransit? ==> !OfSending(e) || trace[k].kind.link in st.links
    requires NodesKnownBy(trace[..k], st) && LinksKnownBy(trace[..k], st) && FlightsKnownBy(trace[..k], st)
    requires OfStep(e) && !e.LinkBandwidthExceeded?
    ensures Draws(meta, st, trace[k].time, trace[k].kind, e) <==> IsFault(meta, trace, k, e)
  {
    hide WellFormed, NodesKnownBy, LinksKnownBy, FlightsKnownBy, Draws, IsFault;
    LinkKeys(meta, st);
    if AboutNode(e) {
      FlightKeys(trace[..k], st);
      NodeFaultIsDrawn(meta, trace, k, st, e);
    } else if OfSending(e) {
      SendFaultIsDrawn(meta, trace, k, st, e);
    } else {
      LandingFaultIsDrawn(meta, trace, k, st, e);
    }
  }

  lemma {:induction false} SendsAlongAre(meta: Meta, order: seq<NodeId>, trace: seq<Step>, l: LinkId)
    requires ValidOrder(meta, order) && TimeSorted(trace) && ReplayTrace(meta, order, trace).Running?
    ensures SendsOver(meta, order, trace, l) == SendsAlong(trace, l)
  {
    hide ValidOrder, ReplayTrace, WellFormed, AdvanceTo, ApplyStep, SentAlong, SendBy, NodesKnownBy;
    if trace != [] {
      var k := |trace| - 1;
      var init, step := trace[..k], trace[k];
      LastStep(meta, order, trace);
      SendsAlongAre(meta, order, init, l);
      var st := StandsSomewhere(meta, order, trace, k);
      assert trace[..k + 1] == trace;
      NextSendIs(meta, order, trace, k, st, l);
      NodesAreKnown(meta, order, init, step.time);
      SendByIsCargo(meta, trace, st, step, l);
    }
  }

  lemma SendByIsCargo(meta: Meta, trace: seq<Step>, st: ReplayState, step: Step, l: LinkId)
    requires trace != [] && step == trace[|trace| - 1] && NodesKnownBy(trace[..|trace| - 1], st)
    requires WellFormed(meta, st) && st.lastStepTime == step.time && ApplyStep(meta, st, step.time, step.kind).Running?
    ensures SendBy(st, step.time, step.kind, l) == SentAlong(trace, l)
  {
    hide WellFormed, ApplyStep, HeldIn, DownAfter, LastClear;
    if step.kind.PacketInTransit? && step.kind.link == l {
      SentFrom(meta, st, step.time, step.kind);
    }
  }

  lemma OverloadIsFault(meta: Meta, order: seq<NodeId>, trace: seq<Step>, k: nat, e: NonFatalError)
    requires ValidOrder(meta, order) && TimeSorted(trace) && ReplayTrace(meta, order, trace).Running?
    requires k < |trace| && e.LinkBandwidthExceeded?
    ensures DrawnAt(meta, order, trace, k, e) <==> IsFault(meta, trace, k, e)
  {
    hide ValidOrder, ReplayTrace, SendsOver, SendsAlong, BruteForceBps, IsUsage, DrawnAt, SendsSorted;
    OverloadDrawn(meta, order, trace, k, e.node, e.link, e.packet, e.maxBps, e.observedBps);
    PrefixReplays(meta, order, trace, k + 1);
    SendsAlongAre(meta, order, trace[..k + 1], e.link);
    SendsInOrder(meta, order, trace[..k + 1], e.link);
    if SendsAlong(trace[..k + 1], e.link) != [] {
      UsageIsBruteForce(SendsAlong(trace[..k + 1], e.link), e.maxBps);
    }
    NoUsageOfNothing(SendsAlong(trace[..k + 1], e.link), e.maxBps, e.observedBps);
  }

  lemma NoUsageOfNothing(sends: seq<Send>, bandwidthBps: nat, used: nat)
    ensures IsUsage(sends, bandwidthBps, used) ==> sends != []
  {
  }

  lemma DrawnIsFault(meta: Meta, order: seq<NodeId>, trace: seq<Step>, k: nat, e: NonFatalError)
    requires ValidOrder(meta, order) && TimeSorted(trace) && ReplayTrace(meta, order, trace).Running?
    requires k < |trace| && OfStep(e)
    ensures DrawnAt(meta, order, trace, k, e) <==> IsFault(meta, trace, k, e)
  {
    if e.LinkBandwidthExceeded? {
      OverloadIsFault(meta, order, trace, k, e);
    } else {
      hide ValidOrder, ReplayTrace, WellFormed, AdvanceTo, ApplyStep, NodesKnownBy, LinksKnownBy, FlightsKnownBy, Draws,
        IsFault;
      var st := StandsSomewhere(meta, order, trace, k);
      NodesAreKnown(meta, order, trace[..k], trace[k].time);
      LinksAreKnown(meta, order, trace[..k], trace[k].time);
      StepNames(meta, st, trace[k].time, trace[k].kind);
      FaultIsDrawn(meta, trace, k, st, e);
    }
  }

  /**
   * On every trace without a fatal error, for every kind of error that a step can draw: the verdict
   * holds it exactly if some step of the trace is at fault in that way, as the trace itself tells.
   */
  lemma VerdictIsJudgement(meta: Meta, order: seq<NodeId>, trace: seq<Step>, e: NonFatalError)
    requires ValidOrder(meta, order) && TimeSorted(trace) && Verdict(meta, order, trace).Running? && OfStep(e)
    ensures e in Verdict(meta, order, trace).st.errors <==> exists k :: 0 <= k < |trace| && IsFault(meta, trace, k, e)
  {
    hide ReplayTrace, Verdict, ValidOrder, DrawnAt, IsFault;
    VerdictIsDrawn(meta, order, trace, e);
    forall k | 0 <= k < |trace|
      ensures DrawnAt(meta, order, trace, k, e) <==> IsFault(meta, trace, k, e)
    {
      DrawnIsFault(meta, order, trace, k, e);
    }
    DrawnInside(meta, order, trace, e);
  }

  lemma DrawnInside(meta: Meta, order: seq<NodeId>, trace: seq<Step>, e: NonFatalError)
    requires ValidOrder(meta, order) && TimeSorted(trace)
    ensures forall k: nat :: DrawnAt(meta, order, trace, k, e) ==> k < |trace|
  {
    hide ReplayTrace, ValidOrder, AdvanceTo, Draws;
  }

  // ----- Buffers -----

  /** The bytes of the packets that a node holds. */
  ghost function BytesHeld(trace: seq<Step>, n: NodeId): nat {
    SumSizes(HeldIn(trace, n))
  }

  lemma UsageIsHeld(meta: Meta, order: seq<NodeId>, trace: seq<Step>, i: nat, n: NodeId)
    requires ValidOrder(meta, order) && TimeSorted(trace) && ReplayTrace(meta, order, trace).Running?
    requires i <= |trace| && n in meta.bufferSizes
    ensures UsageAfter(meta, order, trace, i, n) == BytesHeld(trace[..i], n)
  {
    hide ReplayTrace, ValidOrder, HeldIn, SumSizes;
    PrefixReplays(meta, order, trace, i);
    HoldingsFollowTrace(meta, order, trace[..i], n);
    HoldsNode(meta, ReplayTrace(meta, order, trace[..i]).st, n);
  }

  /** The trace ends with step `i`, or step `i` is at another time than the one before, or than zero if it is the first. */
  predicate InstantEnds(trace: seq<Step>, i: nat) {
    i == |trace| || (i < |trace| && trace[i].time != if i == 0 then 0 else trace[i - 1].time)
  }

  /** A buffer error is tracked exactly if some node holds more bytes than it has room for when an instant ends. */
  lemma BuffersAreJudged(meta: Meta, order: seq<NodeId>, trace: seq<Step>)
    requires ValidOrder(meta, order) && TimeSorted(trace) && Verdict(meta, order, trace).Running?
    ensures (exists e :: e in Verdict(meta, order, trace).st.errors && e.NodeExceedsBufferSize?) <==>
      exists i: nat, n :: InstantEnds(trace, i) && n in meta.bufferSizes && meta.bufferSizes[n] < BytesHeld(trace[..i], n)
  {
    hide ReplayTrace, ValidOrder, CheckUsage, BytesHeld, UsageAfter;
    VerdictIsDrawn(meta, order, trace, MissingLostPacket(0));
    BufferErrorsExact(meta, order, trace);
    hide Verdict;
    InstantsEnd(trace);
    forall i: nat, n | i <= |trace| && n in meta.bufferSizes
      ensures UsageAfter(meta, order, trace, i, n) == BytesHeld(trace[..i], n)
    {
      UsageIsHeld(meta, order, trace, i, n);
    }
    if exists i: nat, n :: InstantEnds(trace, i) && n in meta.bufferSizes && meta.bufferSizes[n] < BytesHeld(trace[..i], n) {
      var i: nat, n :|
        InstantEnds(trace, i) && n in meta.bufferSizes && meta.bufferSizes[n] < BytesHeld(trace[..i], n);
      assert OverfullAt(meta, order, trace, i, n);
    }
  }

  lemma InstantsEnd(trace: seq<Step>)
    ensures forall i: nat :: InstantEnds(trace, i) <==> i <= |trace| && EndsInstant(trace, i)
  {
    forall i: nat | i < |trace|
      ensures LastTime(trace[..i]) == if i == 0 then 0 else trace[i - 1].time
    {
    }
  }

  // ----- Fatal errors -----

  /** The error that makes a step impossible to replay, if there is one. */
  function FatalOf(meta: Meta, before: seq<Step>, s: StepKind): Option<FatalError> {
    if s.PacketLostInTransit? then None
    else if s.NetworkEvent? then
      if s.linkEvent.Some? && s.linkEvent.value.status.Some? && s.linkEvent.value.link !in meta.links
      then Some(MissingLink(s.linkEvent.value.link))
      else if s.nodeEvent.Some? && s.nodeEvent.value.node !in meta.bufferSizes
      then Some(MissingNode(s.nodeEvent.value.node))
      else None
    else if s.node !in meta.bufferSizes then Some(MissingNode(s.node))
    else if s.PacketCongestionEvent? then None
    else
      var held := s.packet in HeldIn(before, s.node);
      if s.PacketInNode? || s.PacketDuplicated? then
        if held && PutsIn(Flights(before).Keys, s, s.node, s.packet) then Some(PacketAlreadyReceived(s.packet)) else None
      else if !held then Some(MissingPacket(s.packet))
      else if s.PacketInTransit? && s.link !in meta.links then Some(MissingLink(s.link))
      else None
  }

  lemma CallFails(view: NodeView, t: Time, k: StepKind)
    requires Tallied(view) && IsNodeStep(k)
    ensures var r := NodeStep(view, t, k);
      && (r.NodeFatal? <==> !k.PacketCongestionEvent? && (k.packet in view.packets <==> k.PacketDuplicated?))
      && (r.NodeFatal? ==>
            r.fatal == if k.PacketDuplicated? then PacketAlreadyReceived(k.packet) else MissingPacket(k.packet))
  {
    hide SumSizes;
  }

  lemma ArrivalFails(view: NodeView, t: Time, k: StepKind)
    requires k.PacketInNode?
    ensures var r := Received(view, k.node, k.packet, k.number, k.size, k.droppedOnArrival, t);
      (r.NodeFatal? <==> !k.droppedOnArrival && k.packet in view.packets)
      && (r.NodeFatal? ==> r.fatal == PacketAlreadyReceived(k.packet))
    ensures var r := Created(view, k.node, k.packet, k.size, t);
      (r.NodeFatal? <==> k.packet in view.packets) && (r.NodeFatal? ==> r.fatal == PacketAlreadyReceived(k.packet))
  {
  }

  lemma SendFails(view: NodeView, n: NodeId, id: PacketId)
    requires Tallied(view)
    ensures var r := Sent(view, n, id);
      (r.NodeFatal? <==> id !in view.packets) && (r.NodeFatal? ==> r.fatal == MissingPacket(id))
  {
    hide SumSizes;
  }

  ghost predicate FailsAs(meta: Meta, before: seq<Step>, k: StepKind, o: Outcome) {
    if o.Failed? then FatalOf(meta, before, k) == Some(o.fatal) else FatalOf(meta, before, k).None?
  }

  lemma ArrivalIsFatal(meta: Meta, before: seq<Step>, st: ReplayState, t: Time, k: StepKind)
    requires WellFormed(meta, st) && st.lastStepTime == t && k.PacketInNode?
    requires NodesKnownBy(before, st) && st.inFlight.Keys == Flights(before).Keys
    ensures FailsAs(meta, before, k, StepInNode(meta, st, t, k))
  {
    LinkKeys(meta, st);
    hide Tallied, ArrivalErrors, Created, Received, HeldIn, Flights, DownAfter, LastClear;
    if k.node in st.nodes {
      ArrivalFails(st.nodes[k.node], t, k);
    }
    hide WellFormed;
  }

  lemma SendIsFatal(meta: Meta, before: seq<Step>, st: ReplayState, t: Time, k: StepKind)
    requires WellFormed(meta, st) && st.lastStepTime == t && k.PacketInTransit? && NodesKnownBy(before, st)
    ensures FailsAs(meta, before, k, StepInTransit(meta, st, t, k))
  {
    LinkKeys(meta, st);
    if k.node in st.nodes {
      assert Tallied(st.nodes[k.node]);
      SendFails(st.nodes[k.node], k.node, k.packet);
    }
    hide WellFormed, Tallied, Sent, SendOnLink, HeldIn, Flights, DownAfter, LastClear;
  }

  lemma FatalIs(meta: Meta, before: seq<Step>, st: ReplayState, t: Time, k: StepKind)
    requires WellFormed(meta, st) && st.lastStepTime == t && NodesKnownBy(before, st) && FlightsKnownBy(before, st)
    ensures FailsAs(meta, before, k, ApplyStep(meta, st, t, k))
  {
    LinkKeys(meta, st);
    hide StepInNode, StepInTransit, HeldIn, Flights, DownAfter, LastClear, IsCargo, SumSizes, SumBits;
    if k.PacketInNode? {
      hide FailsAs, WellFormed;
      FlightKeys(before, st);
      assert st.inFlight.Keys == Flights(before).Keys;
      ArrivalIsFatal(meta, before, st, t, k);
    } else if k.PacketInTransit? {
      hide FailsAs, WellFormed;
      SendIsFatal(meta, before, st, t, k);
    } else if IsNodeStep(k) && k.node in st.nodes {
      hide NodeStep;
      CallFails(st.nodes[k.node], t, k);
    }
  }

  /** The first step that cannot be replayed, and why. */
  ghost predicate FirstFatal(meta: Meta, trace: seq<Step>, k: nat, f: FatalError) {
    && k < |trace| && FatalOf(meta, trace[..k], trace[k].kind) == Some(f)
    && forall j :: 0 <= j < k ==> FatalOf(meta, trace[..j], trace[j].kind).None?
  }

  ghost predicate AllReplay(meta: Meta, trace: seq<Step>) {
    forall j :: 0 <= j < |trace| ==> FatalOf(meta, trace[..j], trace[j].kind).None?
  }

  /**
   * A trace is replayed to its end exactly if every step can be: its node and link exist, what it
   * takes out of a node is there, and what it puts in is not. Else the fatal error is that of the
   * first step that cannot.
   */
  lemma {:induction false} FatalErrorsAreJudged(meta: Meta, order: seq<NodeId>, trace: seq<Step>)
    requires ValidOrder(meta, order) && TimeSorted(trace)
    ensures ReplayTrace(meta, order, trace).Running? <==> AllReplay(meta, trace)
    ensures ReplayTrace(meta, order, trace).Failed? ==>
      exists k :: FirstFatal(meta, trace, k, ReplayTrace(meta, order, trace).fatal)
  {
    hide ValidOrder, WellFormed, FatalOf, AdvanceTo, ApplyStep, NodesKnownBy, LinksKnownBy, FlightsKnownBy;
    if trace != [] {
      var k := |trace| - 1;
      var init, step := trace[..k], trace[k];
      FatalErrorsAreJudged(meta, order, init);
      assert forall j :: 0 <= j < k ==> init[..j] == trace[..j];
      var o := ReplayTrace(meta, order, init);
      if o.Running? {
        NodesAreKnown(meta, order, init, step.time);
        LinksAreKnown(meta, order, init, step.time);
        FatalIs(meta, init, AdvanceTo(meta, order, o.st, step.time), step.time, step.kind);
        if ReplayTrace(meta, order, trace).Failed? {
          assert FirstFatal(meta, trace, k, ReplayTrace(meta, order, trace).fatal);
        }
      } else {
        var j: nat :| FirstFatal(meta, init, j, o.fatal);
        assert FirstFatal(meta, trace, j, o.fatal);
      }
    }
  }
}
