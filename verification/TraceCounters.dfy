/** The statistics of nodes and links, counted on a trace alone, and the replay that counts just so. */
module TraceCounters {
  import opened Types
  import opened NodeReplay
  import opened BandwidthWindow
  import opened Replay
  import opened ReplayTotals
  import opened TraceFlights
  import opened TraceHoldings
  import opened TraceFacts
  import opened LinkErrors

  // ----- What is counted -----

  /** What the verifier counts of a node, each with its packets and its bytes. */
  datatype Counter =
    | Sending
    | Receiving
    | Overtaken
    | Duplicating
    | DroppingFor(reason: DropReason)
    | DroppingOnArrival
    | Congestion

  /** The step is a receipt: it takes a packet off a link into the node. */
  predicate IsReceipt(flying: set<PacketId>, k: StepKind, n: NodeId) {
    k.PacketInNode? && k.node == n && k.packet in flying
  }

  /** Whether a step counts, given which packets are on links and whether its packet was overtaken. */
  predicate IsCounted(c: Counter, flying: set<PacketId>, overtaken: bool, k: StepKind, n: NodeId) {
    match c
    case Sending => k.PacketInTransit? && k.node == n
    case Receiving => IsReceipt(flying, k, n)
    case Overtaken => IsReceipt(flying, k, n) && overtaken
    case Duplicating => k.PacketDuplicated? && k.node == n
    case DroppingFor(reason) => k.PacketDropped? && k.node == n && k.reason == reason
    case DroppingOnArrival => IsReceipt(flying, k, n) && k.droppedOnArrival
    case Congestion => k.PacketCongestionEvent? && k.node == n
  }

  /** The packet's size: as the step has it, or as the node that gives the packet away held it. */
  function SizeOf(k: StepKind, held: map<PacketId, HeldPacket>): nat {
    if k.PacketInNode? || k.PacketDuplicated? || k.PacketCongestionEvent? then k.size
    else if (k.PacketInTransit? || k.PacketDropped?) && k.packet in held then held[k.packet].size
    else 0
  }

  /** Some packet that came into the node before has a greater number. */
  predicate IsOvertaken(before: seq<Step>, k: StepKind, n: NodeId) {
    k.PacketInNode? && exists j ::
      0 <= j < |before| && IsReceipt(Flights(before[..j]).Keys, before[j].kind, n) && k.number < before[j].kind.number
  }

  predicate CountsLast(c: Counter, trace: seq<Step>, n: NodeId)
    requires trace != []
  {
    var before, k := trace[..|trace| - 1], trace[|trace| - 1].kind;
    IsCounted(c, Flights(before).Keys, IsOvertaken(before, k, n), k, n)
  }

  /** The steps that count, each with one packet and its bytes. */
  function Count(c: Counter, trace: seq<Step>, n: NodeId): PacketStats {
    if trace == [] then PacketStats(0, 0)
    else
      var before := trace[..|trace| - 1];
      var stats := Count(c, before, n);
      if CountsLast(c, trace, n)
      then PacketStats(stats.packets + 1, stats.bytes + SizeOf(trace[|trace| - 1].kind, HeldIn(before, n)))
      else stats
  }

  // ----- What the replay counts -----

  function CounterOf(view: NodeView, c: Counter): PacketStats {
    match c
    case Sending => view.sent
    case Receiving => view.received
    case Overtaken => view.reordered
    case Duplicating => view.duplicated
    case DroppingFor(Random) => view.droppedInjected
    case DroppingFor(BufferFull) => view.droppedBufferFull
    case DroppingFor(BufferCleared) => view.droppedBufferCleared
    case DroppingOnArrival => view.droppedDown
    case Congestion => view.ecn
  }

  /** The counter after one more step, from the facts that the replay goes by. */
  predicate Bumped(c: Counter, before: NodeView, after: NodeView, flying: set<PacketId>, k: StepKind, n: NodeId) {
    var stats := CounterOf(before, c);
    CounterOf(after, c) ==
      if IsCounted(c, flying, k.PacketInNode? && k.number < before.highestReceived, k, n)
      then PacketStats(stats.packets + 1, stats.bytes + SizeOf(k, before.packets)) else stats
  }

  lemma CallCounts(view: NodeView, t: Time, k: StepKind, flying: set<PacketId>, c: Counter)
    requires IsNodeStep(k) && Tallied(view)
    ensures var r := NodeStep(view, t, k); r.NodeOk? ==> Bumped(c, view, r.node, flying, k, k.node)
  {
    hide SumSizes;
  }

  lemma SendCounts(view: NodeView, k: StepKind, flying: set<PacketId>, c: Counter)
    requires k.PacketInTransit? && Tallied(view)
    ensures var r := Sent(view, k.node, k.packet); r.NodeOk? ==> Bumped(c, view, r.node, flying, k, k.node)
  {
    hide SumSizes;
  }

  lemma ArrivalCounts(view: NodeView, t: Time, k: StepKind, flying: set<PacketId>, c: Counter)
    requires k.PacketInNode?
    ensures var r := if k.packet in flying then Received(view, k.node, k.packet, k.number, k.size, k.droppedOnArrival, t)
                     else Created(view, k.node, k.packet, k.size, t);
      r.NodeOk? ==> Bumped(c, view, r.node, flying, k, k.node)
  {
  }

  lemma OtherNodesCountNothing(view: NodeView, flying: set<PacketId>, k: StepKind, n: NodeId, c: Counter)
    requires !k.NetworkEvent? && !k.PacketLostInTransit? ==> k.node != n
    ensures Bumped(c, view, view, flying, k, n)
  {
  }

  lemma EventCountsNothing(view: NodeView, e: NodeEvent, t: Time, c: Counter)
    ensures CounterOf(HandleEvent(view, e, t), c) == CounterOf(view, c)
  {
  }

  lemma StepCounts(meta: Meta, st: ReplayState, t: Time, k: StepKind, n: NodeId, c: Counter)
    requires WellFormed(meta, st) && st.lastStepTime == t && ApplyStep(meta, st, t, k).Running? && n in st.nodes
    ensures var st1 := ApplyStep(meta, st, t, k).st;
      n in st1.nodes && Bumped(c, st.nodes[n], st1.nodes[n], st.inFlight.Keys, k, n)
  {
    hide SumSizes, SumBits, PacketSent, UsedBps, ArrivalErrors, Created, Received, Sent, NodeStep, CounterOf, SizeOf,
      IsReceipt, HandleEvent;
    var view, flying := st.nodes[n], st.inFlight.Keys;
    if k.NetworkEvent? {
      EventCounts(st, t, k, n, c);
    } else if k.PacketLostInTransit? || k.node != n {
      hide IsCounted;
      OtherNodesCountNothing(view, flying, k, n, c);
      hide Bumped;
    } else {
      hide IsCounted, Bumped;
      if k.PacketInNode? {
        ArrivalCounts(view, t, k, flying, c);
      } else if k.PacketInTransit? {
        SendCounts(view, k, flying, c);
      } else {
        CallCounts(view, t, k, flying, c);
      }
    }
  }

  lemma EventCounts(st: ReplayState, t: Time, k: StepKind, n: NodeId, c: Counter)
    requires k.NetworkEvent? && n in st.nodes && StepEvent(st, t, k).Running?
    ensures var st1 := StepEvent(st, t, k).st;
      n in st1.nodes && Bumped(c, st.nodes[n], st1.nodes[n], st.inFlight.Keys, k, n)
  {
    hide CounterOf, HandleEvent, SetStatus, SizeOf;
    if k.nodeEvent.Some? {
      EventCountsNothing(st.nodes[n], k.nodeEvent.value, t, c);
    }
  }

  lemma CheckKeepsCounters(view: NodeView, c: Counter)
    ensures CounterOf(UpdateMaxUsage(view), c) == CounterOf(view, c)
    ensures UpdateMaxUsage(view).highestReceived == view.highestReceived
  {
  }

  lemma AdvanceKeepsCounters(meta: Meta, order: seq<NodeId>, st: ReplayState, t: Time, n: NodeId, c: Counter)
    requires ValidOrder(meta, order) && WellFormed(meta, st) && st.lastStepTime <= t && n in st.nodes
    ensures var st1 := AdvanceTo(meta, order, st, t);
      n in st1.nodes && CounterOf(st1.nodes[n], c) == CounterOf(st.nodes[n], c)
      && st1.nodes[n].highestReceived == st.nodes[n].highestReceived
  {
    hide SumSizes, SumBits, CounterOf, UpdateMaxUsage;
    CheckKeepsCounters(st.nodes[n], c);
  }

  // ----- Packets that were overtaken -----

  /** The greatest number that came into the node so far, or zero. */
  ghost predicate IsHighest(trace: seq<Step>, n: NodeId, highest: nat) {
    && (forall j :: 0 <= j < |trace| && IsReceipt(Flights(trace[..j]).Keys, trace[j].kind, n) ==>
          trace[j].kind.number <= highest)
    && (highest == 0 || exists j ::
          0 <= j < |trace| && IsReceipt(Flights(trace[..j]).Keys, trace[j].kind, n) && trace[j].kind.number == highest)
  }

  lemma OvertakenByHighest(trace: seq<Step>, k: StepKind, n: NodeId, highest: nat)
    requires IsHighest(trace, n, highest) && k.PacketInNode?
    ensures IsOvertaken(trace, k, n) <==> k.number < highest
  {
    hide Flights;
  }

  lemma HighestSnoc(trace: seq<Step>, step: Step, n: NodeId, highest: nat)
    requires IsHighest(trace, n, highest)
    ensures IsHighest(trace + [step], n,
      if IsReceipt(Flights(trace).Keys, step.kind, n) && highest < step.kind.number then step.kind.number else highest)
  {
    hide Flights;
    var more := trace + [step];
    assert more[..|trace|] == trace;
    assert forall j :: 0 <= j < |trace| ==> more[..j] == trace[..j] && more[j] == trace[j];
    if highest > 0 {
      var j :| 0 <= j < |trace| && IsReceipt(Flights(trace[..j]).Keys, trace[j].kind, n) && trace[j].kind.number == highest;
      assert IsReceipt(Flights(more[..j]).Keys, more[j].kind, n);
    }
    if IsReceipt(Flights(trace).Keys, step.kind, n) {
      assert IsReceipt(Flights(more[..|trace|]).Keys, more[|trace|].kind, n);
    }
  }

  lemma CallKeepsHighest(view: NodeView, t: Time, k: StepKind)
    requires Tallied(view)
    ensures IsNodeStep(k) ==>
      var r := NodeStep(view, t, k); r.NodeOk? ==> r.node.highestReceived == view.highestReceived
    ensures k.PacketInTransit? ==>
      var r := Sent(view, k.node, k.packet); r.NodeOk? ==> r.node.highestReceived == view.highestReceived
    ensures k.PacketInNode? ==>
      var r := Created(view, k.node, k.packet, k.size, t); r.NodeOk? ==> r.node.highestReceived == view.highestReceived
    ensures k.PacketInNode? ==>
      var r := Received(view, k.node, k.packet, k.number, k.size, k.droppedOnArrival, t);
      r.NodeOk? ==>
        r.node.highestReceived == if view.highestReceived < k.number then k.number else view.highestReceived
  {
    hide SumSizes;
  }

  lemma OthersKeepHighest(meta: Meta, st: ReplayState, t: Time, k: StepKind, n: NodeId)
    requires WellFormed(meta, st) && st.lastStepTime == t && ApplyStep(meta, st, t, k).Running? && n in st.nodes
    requires !k.NetworkEvent? && !k.PacketLostInTransit? ==> k.node != n
    ensures var st1 := ApplyStep(meta, st, t, k).st;
      n in st1.nodes && st1.nodes[n].highestReceived == st.nodes[n].highestReceived
  {
    hide SumSizes, SumBits, Tallied, PacketSent, UsedBps, ArrivalErrors, Created, Received, Sent, NodeStep, SetStatus;
  }

  lemma StepKeepsHighest(meta: Meta, st: ReplayState, t: Time, k: StepKind, n: NodeId)
    requires WellFormed(meta, st) && st.lastStepTime == t && ApplyStep(meta, st, t, k).Running? && n in st.nodes
    ensures var st1, highest := ApplyStep(meta, st, t, k).st, st.nodes[n].highestReceived;
      n in st1.nodes && st1.nodes[n].highestReceived ==
        if IsReceipt(st.inFlight.Keys, k, n) && highest < k.number then k.number else highest
  {
    hide SumSizes, SumBits, PacketSent, UsedBps, ArrivalErrors, Created, Received, Sent, NodeStep;
    if k.NetworkEvent? || k.PacketLostInTransit? || k.node != n {
      hide StepInNode, StepInTransit;
      OthersKeepHighest(meta, st, t, k, n);
    } else {
      assert Tallied(st.nodes[n]);
      CallKeepsHighest(st.nodes[n], t, k);
    }
  }

  lemma {:induction false} HighestFollowsTrace(meta: Meta, order: seq<NodeId>, trace: seq<Step>, n: NodeId)
    requires ValidOrder(meta, order) && TimeSorted(trace) && ReplayTrace(meta, order, trace).Running?
    requires n in meta.bufferSizes
    ensures n in ReplayTrace(meta, order, trace).st.nodes
    ensures IsHighest(trace, n, ReplayTrace(meta, order, trace).st.nodes[n].highestReceived)
  {
    hide WellFormed, AdvanceTo, ApplyStep, ValidOrder, IsReceipt, InitialState, IsHighest, Flights;
    if trace == [] {
      StartsAtZero(meta, n, Sending);
    } else {
      LastStep(meta, order, trace);
      hide ReplayTrace;
      var init, step := trace[..|trace| - 1], trace[|trace| - 1];
      assert trace == init + [step];
      HighestFollowsTrace(meta, order, init, n);
      var st := ReplayTrace(meta, order, init).st;
      AdvanceKeepsCounters(meta, order, st, step.time, n, Sending);
      KnownFlights(meta, order, init, step.time);
      StepKeepsHighest(meta, AdvanceTo(meta, order, st, step.time), step.time, step.kind, n);
      HighestSnoc(init, step, n, st.nodes[n].highestReceived);
    }
  }

  lemma StartsAtZero(meta: Meta, n: NodeId, c: Counter)
    requires n in meta.bufferSizes
    ensures n in InitialState(meta).nodes && CounterOf(InitialState(meta).nodes[n], c) == PacketStats(0, 0)
    ensures IsHighest([], n, InitialState(meta).nodes[n].highestReceived)
  {
  }

  lemma KnownFlights(meta: Meta, order: seq<NodeId>, trace: seq<Step>, t: Time)
    requires ValidOrder(meta, order) && TimeSorted(trace) && ReplayTrace(meta, order, trace).Running?
    requires ReplayTrace(meta, order, trace).st.lastStepTime <= t
    ensures AdvanceTo(meta, order, ReplayTrace(meta, order, trace).st, t).inFlight.Keys == Flights(trace).Keys
  {
    hide ReplayTrace, ValidOrder, Flights;
    FlightsFollowTrace(meta, order, trace);
    var st := ReplayTrace(meta, order, trace).st;
    AdvanceKeepsFlights(meta, order, st, t);
    assert FlightsOf(st.inFlight).Keys == st.inFlight.Keys;
  }

  // ----- Whole traces -----

  lemma BumpedIsCounted(trace: seq<Step>, before: NodeView, after: NodeView, n: NodeId, c: Counter)
    requires trace != []
    requires var init := trace[..|trace| - 1];
      && Bumped(c, before, after, Flights(init).Keys, trace[|trace| - 1].kind, n) && CounterOf(before, c) == Count(c, init, n)
      && before.packets == HeldIn(init, n) && IsHighest(init, n, before.highestReceived)
    ensures CounterOf(after, c) == Count(c, trace, n)
  {
    hide Flights, CounterOf, SizeOf, HeldIn, IsOvertaken, IsHighest, IsReceipt;
    var init, k := trace[..|trace| - 1], trace[|trace| - 1].kind;
    if k.PacketInNode? {
      OvertakenByHighest(init, k, n, before.highestReceived);
    } else {
      assert !IsOvertaken(init, k, n) by { NeverOvertaken(init, k, n); }
    }
  }

  lemma NeverOvertaken(before: seq<Step>, k: StepKind, n: NodeId)
    requires !k.PacketInNode?
    ensures !IsOvertaken(before, k, n)
  {
  }

  /** On every replayed trace, each counter of a node has the number and the bytes of exactly the steps that count for it. */
  lemma {:induction false} CountersFollowTrace(meta: Meta, order: seq<NodeId>, trace: seq<Step>, n: NodeId, c: Counter)
    requires ValidOrder(meta, order) && TimeSorted(trace) && ReplayTrace(meta, order, trace).Running?
    requires n in meta.bufferSizes
    ensures n in ReplayTrace(meta, order, trace).st.nodes
    ensures CounterOf(ReplayTrace(meta, order, trace).st.nodes[n], c) == Count(c, trace, n)
  {
    hide WellFormed, AdvanceTo, ApplyStep, ValidOrder, InitialState, CounterOf, Bumped, Flights, HeldIn, IsHighest, CountsLast;
    if trace == [] {
      StartsAtZero(meta, n, c);
    } else {
      LastStep(meta, order, trace);
      hide ReplayTrace, Count;
      var init, step := trace[..|trace| - 1], trace[|trace| - 1];
      CountersFollowTrace(meta, order, init, n, c);
      HighestFollowsTrace(meta, order, init, n);
      HoldingsFollowTrace(meta, order, init, n);
      KnownFlights(meta, order, init, step.time);
      var st := ReplayTrace(meta, order, init).st;
      AdvanceKeepsCounters(meta, order, st, step.time, n, c);
      AdvanceKeepsPackets(meta, order, st, step.time, n);
      var st1 := AdvanceTo(meta, order, st, step.time);
      StepCounts(meta, st1, step.time, step.kind, n, c);
      BumpedIsCounted(trace, st1.nodes[n], ApplyStep(meta, st1, step.time, step.kind).st.nodes[n], n, c);
    }
  }

  // ----- Losses -----

  /** The step loses a packet that is on a link, and blames link `l`. */
  predicate IsLoss(flying: set<PacketId>, k: StepKind, l: LinkId) {
    k.PacketLostInTransit? && k.link == l && k.packet in flying
  }

  /** The packet's size as it was when it was last sent. */
  function SizeSent(before: seq<Step>, id: PacketId): nat {
    var j := LastSend(before, id);
    if j.Some? && j.value < |before| && before[j.value].kind.PacketInTransit? then CargoOf(before, j.value).size else 0
  }

  function LossesOn(trace: seq<Step>, l: LinkId): PacketStats {
    if trace == [] then PacketStats(0, 0)
    else
      var before, k := trace[..|trace| - 1], trace[|trace| - 1].kind;
      var stats := LossesOn(before, l);
      if IsLoss(Flights(before).Keys, k, l)
      then PacketStats(stats.packets + 1, stats.bytes + SizeSent(before, k.packet)) else stats
  }

  /** The losses noted of the link, if any, are those. */
  ghost predicate LossesAre(lost: map<LinkId, PacketStats>, l: LinkId, stats: PacketStats) {
    if l in lost then lost[l] == stats && stats.packets > 0 else stats == PacketStats(0, 0)
  }

  lemma StepLoses(meta: Meta, st: ReplayState, t: Time, k: StepKind, l: LinkId, stats: PacketStats)
    requires WellFormed(meta, st) && st.lastStepTime == t && ApplyStep(meta, st, t, k).Running?
    requires LossesAre(st.lostByLink, l, stats)
    ensures LossesAre(ApplyStep(meta, st, t, k).st.lostByLink, l,
      if IsLoss(st.inFlight.Keys, k, l) then PacketStats(stats.packets + 1, stats.bytes + st.inFlight[k.packet].size)
      else stats)
  {
    hide SumSizes, SumBits, Tallied, PacketSent, UsedBps, ArrivalErrors, Created, Received, Sent, NodeStep, Expire,
      HandleEvent, SetStatus;
  }

  lemma AdvanceKeepsLosses(meta: Meta, order: seq<NodeId>, st: ReplayState, t: Time)
    requires ValidOrder(meta, order) && WellFormed(meta, st) && st.lastStepTime <= t
    ensures AdvanceTo(meta, order, st, t).lostByLink == st.lostByLink
  {
    hide UpdateMaxBufferUsage;
  }

  /** On every replayed trace, the losses on a link are the packets and the bytes of exactly the steps that lose some there. */
  lemma {:induction false} LossesFollowTrace(meta: Meta, order: seq<NodeId>, trace: seq<Step>, l: LinkId)
    requires ValidOrder(meta, order) && TimeSorted(trace) && ReplayTrace(meta, order, trace).Running?
    ensures LossesAre(ReplayTrace(meta, order, trace).st.lostByLink, l, LossesOn(trace, l))
  {
    hide WellFormed, AdvanceTo, ApplyStep, ValidOrder, LossesAre, Flights, IsLoss, SizeSent;
    if trace == [] {
      assert LossesAre(map[], l, PacketStats(0, 0)) by { NothingLost(l); }
    } else {
      LastStep(meta, order, trace);
      hide ReplayTrace;
      var init, step := trace[..|trace| - 1], trace[|trace| - 1];
      LossesFollowTrace(meta, order, init, l);
      KnownFlights(meta, order, init, step.time);
      var st := ReplayTrace(meta, order, init).st;
      AdvanceKeepsLosses(meta, order, st, step.time);
      AdvanceKeepsFlights(meta, order, st, step.time);
      StepLoses(meta, AdvanceTo(meta, order, st, step.time), step.time, step.kind, l, LossesOn(init, l));
      if IsLoss(Flights(init).Keys, step.kind, l) {
        LostIsFlying(Flights(init).Keys, step.kind, l);
        SizeSentIs(meta, order, init, step.kind.packet);
      }
    }
  }

  lemma NothingLost(l: LinkId)
    ensures LossesAre(map[], l, PacketStats(0, 0))
  {
  }

  lemma LostIsFlying(flying: set<PacketId>, k: StepKind, l: LinkId)
    requires IsLoss(flying, k, l)
    ensures k.PacketLostInTransit? && k.packet in flying
  {
  }

  lemma SizeSentIs(meta: Meta, order: seq<NodeId>, trace: seq<Step>, id: PacketId)
    requires ValidOrder(meta, order) && TimeSorted(trace) && ReplayTrace(meta, order, trace).Running?
    requires id in ReplayTrace(meta, order, trace).st.inFlight
    ensures SizeSent(trace, id) == ReplayTrace(meta, order, trace).st.inFlight[id].size
  {
    hide ReplayTrace, ValidOrder, CargoOf, LastSend;
    CargoFollowsTrace(meta, order, trace, id);
  }
}
