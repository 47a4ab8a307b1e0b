/** What holds of every run of the simulator, from the start, in any interleaving. */
module VerifiedRuns {
  import opened Types
  import opened Network
  import opened Status
  import opened Simulator
  import opened BandwidthWindow
  import opened NodeReplay
  import opened Replay
  import opened BufferCheck
  import opened Ledger
  import opened Agreement
  import opened AgreementSteps
  import opened AgreementMoves
  import opened AgreementRuns
  import opened LinkTasks
  import opened Sanity
  import opened Runs
  import opened LinkMoves
  import opened RunStates
  import opened ErrorCauses
  import opened Phantoms
  import opened TraceFlights
  import opened ReplayTotals
  import opened LinkErrors
  import opened LinkOrder
  import opened RunSends
  import opened StableSort
  import opened Verifier
  import Pacing

  // ----- The verdict on a run's trace -----

  lemma VerdictOfTracked(c: Config, order: seq<NodeId>, s: State)
    requires ValidConfig(c) && Tracked(c, order, s) && AtRest(s.log)
    ensures TimeSorted(s.trace) && ValidOrder(MetaOf(c), order)
    ensures Verdict(MetaOf(c), order, s.trace).Running?
    ensures var st := Verdict(MetaOf(c), order, s.trace).st;
      && ErrorsExcused(c, s.log, s.trace, st.errors)
      && Mirrored(s.log, st.nodes, st.inFlight)
      && st.nodes.Keys == c.nodes.Keys
  {
    hide ValidConfig, WellFormed, Agrees, ValidOrder, CheckUsage, MetaOf, AtRest, ReplayTrace, ErrorsExcused, Mirrored;
    var st := ReplayTrace(MetaOf(c), order, s.trace).st;
    var r := Present(c, order, s);
    VerdictChecks(MetaOf(c), order, s.trace);
    AgreesTime(c, s, r);
    if st.lastStepTime == s.now {
      CheckedAgrees(c, order, s, st);
      AgreesParts(c, s, CheckUsage(MetaOf(c), order, st));
    } else {
      AgreesParts(c, s, r);
    }
  }

  lemma AgreesParts(c: Config, s: State, r: ReplayState)
    requires ValidConfig(c) && Agrees(c, s, r)
    ensures ErrorsExcused(c, s.log, s.trace, r.errors) && Mirrored(s.log, r.nodes, r.inFlight)
    ensures r.nodes.Keys == c.nodes.Keys
    ensures Accounted(c, s.nodes, s.log) && RecordsPlaced(c, s.log) && s.nodes.Keys == c.nodes.Keys
  {
    hide ValidConfig, Mirrored, ErrorsExcused;
  }

  /** Every trace replays, and the verifier's maps are right at the end; the errors are those excused so far. */
  lemma TracesReplay(c: Config, order: seq<NodeId>, run: seq<Action>)
    requires ValidConfig(c) && ValidOrder(MetaOf(c), order) && IsRun(c, run)
    ensures var s := StateAfter(c, run).value;
      && TimeSorted(s.trace)
      && Verdict(MetaOf(c), order, s.trace).Running?
      && ErrorsExcused(c, s.log, s.trace, Verdict(MetaOf(c), order, s.trace).st.errors)
      && Mirrored(s.log, Verdict(MetaOf(c), order, s.trace).st.nodes, Verdict(MetaOf(c), order, s.trace).st.inFlight)
  {
    hide ValidConfig, ValidOrder, Tracked, Sane, TasksWait, ErrorsExcused, Mirrored, Verdict, AtRest;
    RunsAreGood(c, order, run);
    GoodIsSane(c, order, StateAfter(c, run).value);
    VerdictOfTracked(c, order, StateAfter(c, run).value);
  }

  /** Errors that no run can draw. */
  predicate NeverDrawn(e: NonFatalError) {
    || e.MissingLostPacket? || e.OfflinePacketSend? || e.DisconnectedPacketSend? || e.DisconnectedPacketReceive?
    || e.TooFastPacketReceive? || e.PacketCreatedByRouterNode? || e.NodeUpPacketDroppedOnArrival?
    || e.PacketSurvivedBufferCorruption?
  }

  lemma TheseAreNeverDrawn(c: Config, order: seq<NodeId>, run: seq<Action>, e: NonFatalError)
    requires ValidConfig(c) && ValidOrder(MetaOf(c), order) && IsRun(c, run)
    requires TimeSorted(StateAfter(c, run).value.trace)
    requires Verdict(MetaOf(c), order, StateAfter(c, run).value.trace).Running?
    requires e in Verdict(MetaOf(c), order, StateAfter(c, run).value.trace).st.errors
    ensures !NeverDrawn(e)
    ensures e.NodeExceedsBufferSize? ==> e.node in c.nodes && c.nodes[e.node].kind.Host?
    ensures e.LinkBandwidthExceeded? ==>
      exists i :: 0 <= i < |StateAfter(c, run).value.log| && StateAfter(c, run).value.log[i].packet.id == e.packet
        && WithinOnePacket(e.observedBps, e.maxBps, StateAfter(c, run).value.log[i].packet.size)
  {
    hide ValidConfig, ValidOrder, Mirrored, Verdict, StateAfter;
    TracesReplay(c, order, run);
    assert Excused(c, StateAfter(c, run).value.log, StateAfter(c, run).value.trace, e);
  }

  /**
   * In every reachable state and for every router, the bytes the verifier counts in the node and
   * the bytes dropped by buffer clears are together exactly what is missing from the outbound
   * buffer's capacity. So the free space never exceeds the capacity, and the part of it that a
   * clear wiped is never given back.
   */
  lemma RouterBuffersBalance(c: Config, order: seq<NodeId>, run: seq<Action>, n: NodeId)
    requires ValidConfig(c) && ValidOrder(MetaOf(c), order) && IsRun(c, run)
    requires n in c.nodes && c.nodes[n].kind.Router?
    ensures var s := StateAfter(c, run).value;
      && TimeSorted(s.trace) && Verdict(MetaOf(c), order, s.trace).Running?
      && n in s.nodes && n in Verdict(MetaOf(c), order, s.trace).st.nodes
      && Verdict(MetaOf(c), order, s.trace).st.nodes[n].bufferUsage + Bytes(s.log, n, Wiped)
         == c.nodes[n].bufferSize - s.nodes[n].available
  {
    hide ValidConfig, ValidOrder, Sane, TasksWait, ErrorsExcused, HoldingsMirrored, FlightsMirrored, IdsUnique,
      Verdict, AtRest, Agrees, Present, Replays, Accounted, RecordsPlaced;
    var s := StateAfter(c, run).value;
    RunsAreGood(c, order, run);
    GoodIsSane(c, order, s);
    VerdictOfTracked(c, order, s);
    AgreesParts(c, s, Present(c, order, s));
    RouterUsageFits(c, s, n);
  }

  /** Every node's buffer balances, once what an application has yet to read and phantoms are set apart. */
  lemma NodeBuffersBalance(c: Config, order: seq<NodeId>, run: seq<Action>, n: NodeId)
    requires ValidConfig(c) && ValidOrder(MetaOf(c), order) && IsRun(c, run) && n in c.nodes
    ensures var s := StateAfter(c, run).value;
      && TimeSorted(s.trace) && Verdict(MetaOf(c), order, s.trace).Running?
      && n in s.nodes && n in Verdict(MetaOf(c), order, s.trace).st.nodes
      && Verdict(MetaOf(c), order, s.trace).st.nodes[n].bufferUsage + Bytes(s.log, n, Wiped)
         == c.nodes[n].bufferSize - s.nodes[n].available + Bytes(s.log, n, Uncharged)
  {
    hide ValidConfig, ValidOrder, Sane, TasksWait, ErrorsExcused, HoldingsMirrored, FlightsMirrored, IdsUnique,
      Verdict, AtRest, Agrees, Present, Replays, RecordsPlaced;
    var s := StateAfter(c, run).value;
    RunsAreGood(c, order, run);
    GoodIsSane(c, order, s);
    VerdictOfTracked(c, order, s);
    AgreesParts(c, s, Present(c, order, s));
    BytesSplit(s.log, n);
  }

  /**
   * So in a reachable state the verifier counts more in a node than its buffer holds exactly if the
   * packets that take no buffer space, those an application has yet to read and phantoms, outweigh
   * the space that is free or was lost to clears.
   */
  lemma BufferExceededIff(c: Config, order: seq<NodeId>, run: seq<Action>, n: NodeId)
    requires ValidConfig(c) && ValidOrder(MetaOf(c), order) && IsRun(c, run) && n in c.nodes
    ensures var s := StateAfter(c, run).value;
      && TimeSorted(s.trace) && Verdict(MetaOf(c), order, s.trace).Running?
      && n in s.nodes && n in Verdict(MetaOf(c), order, s.trace).st.nodes
      && (c.nodes[n].bufferSize < Verdict(MetaOf(c), order, s.trace).st.nodes[n].bufferUsage
          <==> s.nodes[n].available + Bytes(s.log, n, Wiped) < Bytes(s.log, n, Uncharged))
  {
    hide ValidConfig, ValidOrder, Verdict, StateAfter, Bytes;
    NodeBuffersBalance(c, order, run, n);
  }

  // ----- What causes each error -----

  /** The usage `most` of a node, made up of what its buffer holds and of what takes no space there. */
  ghost predicate UsageIs(c: Config, s: State, n: NodeId, most: nat) {
    && n in s.nodes && n in c.nodes
    && most + s.nodes[n].available + Bytes(s.log, n, Wiped) == c.nodes[n].bufferSize + Bytes(s.log, n, Uncharged)
  }

  /** After the first `m` actions an instant ended, and unread and phantom bytes outweighed the space left or lost. */
  ghost predicate ExceededAfter(c: Config, run: seq<Action>, m: nat, n: NodeId, most: nat)
    requires ValidConfig(c) && IsRun(c, run)
  {
    && m <= |run| && IsRun(c, run[..m])
    && var s, trace := StateAfter(c, run[..m]).value, StateAfter(c, run).value.trace;
       && s.trace <= trace && EndsInstant(trace, |s.trace|)
       && UsageIs(c, s, n, most) && s.nodes[n].available + Bytes(s.log, n, Wiped) < Bytes(s.log, n, Uncharged)
  }

  /** Step `j` puts a packet on the link that comes off it at step `k`, although the link went down by then. */
  predicate ComesFrom(trace: seq<Step>, j: nat, k: nat, n: NodeId, l: LinkId, sent: Time, lastDown: Time) {
    && CameOffline(trace, k, n, l, sent, lastDown)
    && j < k && trace[j].time == sent && trace[j].kind.PacketInTransit? && trace[j].kind.link == l
    && trace[j].kind.packet == trace[k].kind.packet
  }

  /** A packet's record says that its host created it while down. */
  predicate IsPhantom(log: seq<Record>, i: nat, n: NodeId, id: PacketId) {
    i < |log| && log[i].node == n && log[i].packet.id == id && log[i].fate.Phantom?
  }

  /** The only non-fatal errors that a run's trace can draw, each with its cause. */
  ghost predicate Explained(c: Config, run: seq<Action>, e: NonFatalError)
    requires ValidConfig(c) && IsRun(c, run)
  {
    var s := StateAfter(c, run).value;
    match e
    case NodeExceedsBufferSize(n, size, most) =>
      && n in c.nodes && c.nodes[n].kind.Host? && size == c.nodes[n].bufferSize
      && exists m :: ExceededAfter(c, run, m, n, most)
    case NodeDownPacketSend(n, id) => n in c.nodes && exists k :: SentWhileDown(s.trace, k, n, id)
    case NodeDownPacketReceive(n, id) =>
      (exists i :: IsPhantom(s.log, i, n, id)) && exists k :: AddedWhileDown(s.trace, k, n, id)
    case OfflinePacketReceive(n, l, sent, lastDown) =>
      && l in c.links && n == TargetNode(c, l) && DownAt(s.trace, l, sent)
      && exists j, k :: ComesFrom(s.trace, j, k, n, l, sent, lastDown)
    case LinkBandwidthExceeded(n, l, id, most, observed) =>
      && l in c.links && n == SourceNode(c, l) && most == c.links[l].bandwidthBps
      && exists k :: OverloadedWithin(TransitsBy(c, run, l), k, n, id, most, observed)
    case _ => false
  }

  /** Send number `k` is over the bandwidth, but by no more than its packet's share of the window. */
  predicate OverloadedWithin(transits: seq<Transit>, k: nat, n: NodeId, id: PacketId, most: nat, observed: nat) {
    OverloadedBy(most, transits, k, n, id, observed) && WithinOnePacket(observed, most, transits[k].packet.size)
  }

  lemma VerdictUsage(meta: Meta, order: seq<NodeId>, trace: seq<Step>, n: NodeId)
    requires ValidOrder(meta, order) && TimeSorted(trace) && Verdict(meta, order, trace).Running?
    requires n in Verdict(meta, order, trace).st.nodes
    ensures UsageAfter(meta, order, trace, |trace|, n) == Verdict(meta, order, trace).st.nodes[n].bufferUsage
  {
    hide ReplayTrace, ValidOrder, UpdateMaxBufferUsage, WellFormed;
    var st := ReplayTrace(meta, order, trace).st;
    VerdictChecks(meta, order, trace);
    NodesKnown(meta, st);
    UsageNow(meta, order, trace, n);
    OrderCovers(meta, order);
  }

  lemma SameUsage(meta: Meta, order: seq<NodeId>, trace: seq<Step>, trace1: seq<Step>, i: nat, n: NodeId)
    requires ValidOrder(meta, order) && TimeSorted(trace) && TimeSorted(trace1) && i <= |trace| && trace1 == trace[..i]
    ensures UsageAfter(meta, order, trace, i, n) == UsageAfter(meta, order, trace1, |trace1|, n)
  {
    assert trace1[..|trace1|] == trace[..i];
  }

  lemma BufferErrorExplained(c: Config, order: seq<NodeId>, run: seq<Action>, e: NonFatalError)
    requires ValidConfig(c) && ValidOrder(MetaOf(c), order) && IsRun(c, run) && e.NodeExceedsBufferSize?
    requires var trace := StateAfter(c, run).value.trace;
      TimeSorted(trace) && Verdict(MetaOf(c), order, trace).Running? && e in Verdict(MetaOf(c), order, trace).st.errors
    requires e.node in c.nodes
    ensures e.bufferSize == c.nodes[e.node].bufferSize && exists m :: ExceededAfter(c, run, m, e.node, e.maxUsage)
  {
    hide ValidConfig, ValidOrder, Verdict, StateAfter, Bytes, UsageAfter, EndsInstant;
    var meta, trace := MetaOf(c), StateAfter(c, run).value.trace;
    BufferErrorsAreReal(meta, order, trace, e);
    var i: nat :| ExceededAt(meta, order, trace, e, i);
    var m := InstantsAreStates(c, run, i);
    var s := StateAfter(c, run[..m]).value;
    NodeBuffersBalance(c, order, run[..m], e.node);
    SameUsage(meta, order, trace, s.trace, i, e.node);
    VerdictUsage(meta, order, s.trace, e.node);
    assert ExceededAfter(c, run, m, e.node, e.maxUsage);
  }

  lemma OfflineComesFrom(trace: seq<Step>, n: NodeId, l: LinkId, sent: Time, lastDown: Time)
    requires exists k :: CameOffline(trace, k, n, l, sent, lastDown)
    ensures exists j, k :: ComesFrom(trace, j, k, n, l, sent, lastDown)
  {
    hide Flights, LastDownOf;
    var k: nat :| CameOffline(trace, k, n, l, sent, lastDown);
    var j := FlightsAreSends(trace[..k], trace[k].kind.packet);
    assert trace[..k][j] == trace[j];
    assert ComesFrom(trace, j, k, n, l, sent, lastDown);
  }

  lemma LinkIsKnown(c: Config, l: LinkId)
    requires ValidConfig(c) && l in c.links
    ensures l in MetaOf(c).links && MetaOf(c).links[l].bandwidthBps == c.links[l].bandwidthBps
  {
    hide ValidConfig, SourceNode, TargetNode;
  }

  lemma ReplayRuns(meta: Meta, order: seq<NodeId>, trace: seq<Step>)
    requires ValidOrder(meta, order) && TimeSorted(trace) && Verdict(meta, order, trace).Running?
    ensures ReplayTrace(meta, order, trace).Running?
  {
    hide ReplayTrace, ValidOrder, CheckUsage, WellFormed;
  }

  /** A link is reported as over its bandwidth exactly if some send of the run made it so. */
  lemma OverloadsExactlyInRuns(c: Config, order: seq<NodeId>, run: seq<Action>, n: NodeId, l: LinkId, id: PacketId,
                               most: nat, observed: nat)
    requires ValidConfig(c) && ValidOrder(MetaOf(c), order) && IsRun(c, run) && l in c.links
    ensures var trace := StateAfter(c, run).value.trace;
      && TimeSorted(trace) && Verdict(MetaOf(c), order, trace).Running?
      && (LinkBandwidthExceeded(n, l, id, most, observed) in Verdict(MetaOf(c), order, trace).st.errors <==>
          most == c.links[l].bandwidthBps && exists k :: OverloadedWithin(TransitsBy(c, run, l), k, n, id, most, observed))
  {
    hide ValidConfig, ValidOrder, StateAfter, Verdict, Mirrored, ErrorsExcused, SentBeyond, TransitsBy, OverloadedBy,
      TransitsOver, SendsOver, Pacing.SendsOf, PacketsOf, ReplayTrace, Pacing.PacerAfter;
    TracesReplay(c, order, run);
    var trace, transits := StateAfter(c, run).value.trace, TransitsBy(c, run, l);
    LinkIsKnown(c, l);
    SendsAgree(c, order, run, l);
    ReplayRuns(MetaOf(c), order, trace);
    OverloadsReportedExactly(MetaOf(c), order, trace, n, l, id, most, observed);
    OverloadsSeen(MetaOf(c), order, trace, transits, l, n, id, most, observed);
    forall k: nat | OverloadedBy(most, transits, k, n, id, observed) && most == c.links[l].bandwidthBps
      ensures OverloadedWithin(transits, k, n, id, most, observed)
    {
      OverloadIsWithin(transits, n, id, k, most, observed);
    }
  }

  lemma OverloadIsWithin(transits: seq<Transit>, n: NodeId, id: PacketId, k: nat, bandwidthBps: nat, observed: nat)
    requires bandwidthBps > 0 && Pacing.PacerAfter(PacketsOf(transits), bandwidthBps).Some?
    requires OverloadedBy(bandwidthBps, transits, k, n, id, observed)
    ensures OverloadedWithin(transits, k, n, id, bandwidthBps, observed)
  {
    hide PacketsOf, Pacing.PacerAfter, WithinOnePacket, IsUsage, BruteForceBps, BitsSent;
    PacedUntil(transits, k, bandwidthBps);
    UsageIsBruteForce(BitsSent(transits[..k + 1]), bandwidthBps);
  }

  lemma PhantomsExactlyInRuns(c: Config, order: seq<NodeId>, run: seq<Action>, n: NodeId, id: PacketId)
    requires ValidConfig(c) && ValidOrder(MetaOf(c), order) && IsRun(c, run) && n in c.nodes
    ensures var s := StateAfter(c, run).value;
      && TimeSorted(s.trace) && Verdict(MetaOf(c), order, s.trace).Running?
      && (NodeDownPacketReceive(n, id) in Verdict(MetaOf(c), order, s.trace).st.errors
          <==> exists i :: IsPhantom(s.log, i, n, id))
      && (NodeDownPacketReceive(n, id) in Verdict(MetaOf(c), order, s.trace).st.errors
          <==> exists k :: AddedWhileDown(s.trace, k, n, id))
  {
    hide ValidConfig, ValidOrder, StateAfter, Verdict, Mirrored, AddedWhileDown;
    TracesReplay(c, order, run);
    var s, e := StateAfter(c, run).value, NodeDownPacketReceive(n, id);
    NodeIsKnown(c, n);
    DownReceiptsReportedExactly(MetaOf(c), order, s.trace, n, id);
    if e in Verdict(MetaOf(c), order, s.trace).st.errors {
      assert Excused(c, s.log, s.trace, e);
      var i: nat :| i < |s.log| && s.log[i].node == n && s.log[i].packet.id == id && s.log[i].fate.Phantom?;
      assert IsPhantom(s.log, i, n, id);
    }
    if exists i :: IsPhantom(s.log, i, n, id) {
      var i: nat :| IsPhantom(s.log, i, n, id);
      PhantomsAreShown(c, run, i);
    }
  }

  lemma NodeIsKnown(c: Config, n: NodeId)
    requires ValidConfig(c) && n in c.nodes
    ensures n in MetaOf(c).bufferSizes
  {
  }

  lemma ErrorExplained(c: Config, order: seq<NodeId>, run: seq<Action>, e: NonFatalError)
    requires ValidConfig(c) && ValidOrder(MetaOf(c), order) && IsRun(c, run)
    requires var trace := StateAfter(c, run).value.trace;
      TimeSorted(trace) && Verdict(MetaOf(c), order, trace).Running? && e in Verdict(MetaOf(c), order, trace).st.errors
    ensures Explained(c, run, e)
  {
    hide ValidConfig, ValidOrder, Verdict, StateAfter, Mirrored, ExceededAfter, SentWhileDown, AddedWhileDown, Sane,
      TasksWait, AtRest, CameOffline, ComesFrom, OverloadedWithin, TransitsBy, DownAt, IsPhantom;
    var s := StateAfter(c, run).value;
    TracesReplay(c, order, run);
    assert Excused(c, s.log, s.trace, e);
    RunsAreSane(c, run);
    RecordsKnown(c, s);
    match e
    case NodeExceedsBufferSize(n, _, _) => BufferErrorExplained(c, order, run, e);
    case NodeDownPacketSend(n, id) => DownSendsReportedExactly(MetaOf(c), order, s.trace, n, id);
    case NodeDownPacketReceive(n, id) => PhantomsExactlyInRuns(c, order, run, n, id);
    case OfflinePacketReceive(n, l, sent, lastDown) =>
      LinkIsKnown(c, l);
      OfflineArrivalsReportedExactly(MetaOf(c), order, s.trace, n, l, sent, lastDown);
      OfflineComesFrom(s.trace, n, l, sent, lastDown);
    case LinkBandwidthExceeded(n, l, id, most, observed) =>
      OverloadsExactlyInRuns(c, order, run, n, l, id, most, observed);
    case _ =>
  }

  /** What has its cause is reported; which of several nodes is blamed for its buffer is the verifier's choice. */
  lemma ExplainedIsReported(c: Config, order: seq<NodeId>, run: seq<Action>, e: NonFatalError)
    requires ValidConfig(c) && ValidOrder(MetaOf(c), order) && IsRun(c, run)
    requires Explained(c, run, e) && !e.NodeExceedsBufferSize?
    ensures var trace := StateAfter(c, run).value.trace;
      TimeSorted(trace) && Verdict(MetaOf(c), order, trace).Running? && e in Verdict(MetaOf(c), order, trace).st.errors
  {
    hide ValidConfig, ValidOrder, Verdict, StateAfter, Mirrored, SentWhileDown, AddedWhileDown, CameOffline,
      OverloadedWithin, TransitsBy, DownAt, Sane, TasksWait, AtRest;
    var s := StateAfter(c, run).value;
    TracesReplay(c, order, run);
    RunsAreSane(c, run);
    match e
    case NodeDownPacketSend(n, id) =>
      NodeIsKnown(c, n);
      DownSendsReportedExactly(MetaOf(c), order, s.trace, n, id);
    case NodeDownPacketReceive(n, id) =>
      PhantomIsInNode(c, s, n, id);
      PhantomsExactlyInRuns(c, order, run, n, id);
    case OfflinePacketReceive(n, l, sent, lastDown) =>
      LinkIsKnown(c, l);
      OfflineArrivalsReportedExactly(MetaOf(c), order, s.trace, n, l, sent, lastDown);
    case LinkBandwidthExceeded(n, l, id, most, observed) =>
      assert exists k :: OverloadedWithin(TransitsBy(c, run, l), k, n, id, most, observed);
      OverloadsExactlyInRuns(c, order, run, n, l, id, most, observed);
  }

  lemma PhantomIsInNode(c: Config, s: State, n: NodeId, id: PacketId)
    requires Sane(c, s) && exists i :: IsPhantom(s.log, i, n, id)
    ensures n in c.nodes
  {
  }

  lemma RecordsKnown(c: Config, s: State)
    requires ValidConfig(c) && Sane(c, s)
    ensures forall i :: 0 <= i < |s.log| ==> s.log[i].node in MetaOf(c).bufferSizes
  {
  }

  /**
   * Every trace of every run, in any interleaving and up to the first failed assertion, is replayed
   * without a fatal error. Every error that is reported has its cause in the run, and, buffers apart,
   * whatever has such a cause is reported: a send from a node whose last status event was a Down; a
   * packet that a host created while it was down; an arrival of a packet that went onto its link at
   * the very instant of a Down update; a send with which the bits in the window exceed the
   * bandwidth, by no more than that packet's. For buffers, the cause is the end of an instant at which a host's
   * unread and phantom packets outweighed its buffer's free and wiped space. At the end, the
   * verifier's packet maps are exactly the packets in the nodes and on the links.
   */
  lemma EveryTraceReplays(c: Config, order: seq<NodeId>, run: seq<Action>)
    requires ValidConfig(c) && ValidOrder(MetaOf(c), order) && IsRun(c, run)
    ensures var s := StateAfter(c, run).value;
      && TimeSorted(s.trace)
      && Verdict(MetaOf(c), order, s.trace).Running?
      && (forall e :: e in Verdict(MetaOf(c), order, s.trace).st.errors ==> Explained(c, run, e))
      && (forall e :: Explained(c, run, e) && !e.NodeExceedsBufferSize? ==>
            e in Verdict(MetaOf(c), order, s.trace).st.errors)
      && Mirrored(s.log, Verdict(MetaOf(c), order, s.trace).st.nodes, Verdict(MetaOf(c), order, s.trace).st.inFlight)
  {
    hide ValidConfig, ValidOrder, ErrorsExcused, Mirrored, Verdict, StateAfter, Explained;
    TracesReplay(c, order, run);
    forall e | e in Verdict(MetaOf(c), order, StateAfter(c, run).value.trace).st.errors
      ensures Explained(c, run, e)
    {
      ErrorExplained(c, order, run, e);
    }
    forall e | Explained(c, run, e) && !e.NodeExceedsBufferSize?
      ensures e in Verdict(MetaOf(c), order, StateAfter(c, run).value.trace).st.errors
    {
      ExplainedIsReported(c, order, run, e);
    }
  }

  /**
   * When a run's verdict has a buffer error: exactly if, after some of its actions, an instant ended
   * at which some node's unread and phantom packets outweighed its buffer's free and wiped space.
   */
  lemma BufferErrorsExactlyInRuns(c: Config, order: seq<NodeId>, run: seq<Action>)
    requires ValidConfig(c) && ValidOrder(MetaOf(c), order) && IsRun(c, run)
    ensures var trace := StateAfter(c, run).value.trace;
      && TimeSorted(trace) && Verdict(MetaOf(c), order, trace).Running?
      && (Reported(Verdict(MetaOf(c), order, trace).st.errors) <==>
          exists m, n, most :: ExceededAfter(c, run, m, n, most))
  {
    hide ValidConfig, ValidOrder, ErrorsExcused, Mirrored, Verdict, StateAfter, ExceededAfter, OverfullAtSomeEnd;
    TracesReplay(c, order, run);
    var trace := StateAfter(c, run).value.trace;
    BufferErrorsExact(MetaOf(c), order, trace);
    if Reported(Verdict(MetaOf(c), order, trace).st.errors) {
      var e :| e in Verdict(MetaOf(c), order, trace).st.errors && e.NodeExceedsBufferSize?;
      ErrorExplained(c, order, run, e);
      var m: nat :| ExceededAfter(c, run, m, e.node, e.maxUsage);
    }
    if exists m, n, most :: ExceededAfter(c, run, m, n, most) {
      var m: nat, n, most :| ExceededAfter(c, run, m, n, most);
      ExceededIsOverfull(c, order, run, m, n, most);
    }
  }

  lemma ExceededIsOverfull(c: Config, order: seq<NodeId>, run: seq<Action>, m: nat, n: NodeId, most: nat)
    requires ValidConfig(c) && ValidOrder(MetaOf(c), order) && IsRun(c, run) && ExceededAfter(c, run, m, n, most)
    requires TimeSorted(StateAfter(c, run).value.trace)
    ensures OverfullAtSomeEnd(MetaOf(c), order, StateAfter(c, run).value.trace)
  {
    hide ValidConfig, ValidOrder, Verdict, StateAfter, Bytes, UsageAfter, EndsInstant;
    var meta, trace := MetaOf(c), StateAfter(c, run).value.trace;
    var s := StateAfter(c, run[..m]).value;
    var i := |s.trace|;
    assert s.trace == trace[..i];
    NodeBuffersBalance(c, order, run[..m], n);
    SameUsage(meta, order, trace, s.trace, i, n);
    VerdictUsage(meta, order, s.trace, n);
    BufferIsKnown(c, n);
    assert OverfullAt(meta, order, trace, i, n);
  }

  lemma BufferIsKnown(c: Config, n: NodeId)
    requires ValidConfig(c) && n in c.nodes
    ensures n in MetaOf(c).bufferSizes && MetaOf(c).bufferSizes[n] == c.nodes[n].bufferSize
  {
  }

  /**
   * When a run's verdict has a link over its bandwidth: exactly if, at some of the sends that the run
   * made over it and its pacer allowed, the bits in the window exceed what the bandwidth allows.
   */
  lemma LinkOverloadedIff(c: Config, order: seq<NodeId>, run: seq<Action>, l: LinkId)
    requires ValidConfig(c) && ValidOrder(MetaOf(c), order) && IsRun(c, run) && l in c.links
    ensures var trace, transits, bps := StateAfter(c, run).value.trace, TransitsBy(c, run, l), c.links[l].bandwidthBps;
      && TimeSorted(trace) && Verdict(MetaOf(c), order, trace).Running?
      && (HasOverload(Verdict(MetaOf(c), order, trace).st.errors, l) <==> exists k :: WindowExceeds(transits, k, bps))
  {
    hide ValidConfig, ValidOrder, ErrorsExcused, Mirrored, Verdict, StateAfter, TransitsBy, OverloadedWithin, WindowExceeds;
    TracesReplay(c, order, run);
    var errors := Verdict(MetaOf(c), order, StateAfter(c, run).value.trace).st.errors;
    var transits, bps := TransitsBy(c, run, l), c.links[l].bandwidthBps;
    if HasOverload(errors, l) {
      var e :| e in errors && e.LinkBandwidthExceeded? && e.link == l;
      OverloadsExactlyInRuns(c, order, run, e.node, l, e.packet, e.maxBps, e.observedBps);
      var k: nat :| OverloadedWithin(transits, k, e.node, e.packet, bps, e.observedBps);
      OverloadExceeds(transits, k, e.node, e.packet, bps, e.observedBps);
    }
    if exists k :: WindowExceeds(transits, k, bps) {
      var k: nat :| WindowExceeds(transits, k, bps);
      ExceedsIsOverload(c, order, run, l, k);
    }
  }

  predicate HasOverload(errors: seq<NonFatalError>, l: LinkId) {
    exists e :: e in errors && e.LinkBandwidthExceeded? && e.link == l
  }

  /** At send number `k` the bits of the last second or ten seconds, both ends included, are too many. */
  predicate WindowExceeds(transits: seq<Transit>, k: nat, bandwidthBps: nat) {
    k < |transits| && IsTooMuch(BitsSent(transits[..k + 1]), bandwidthBps)
  }

  lemma OverloadExceeds(transits: seq<Transit>, k: nat, n: NodeId, id: PacketId, bandwidthBps: nat, observed: nat)
    requires OverloadedWithin(transits, k, n, id, bandwidthBps, observed)
    ensures WindowExceeds(transits, k, bandwidthBps)
  {
    hide BitsSent, WithinOnePacket, IsUsage, IsTooMuch;
    TooMuchIsOver(BitsSent(transits[..k + 1]), bandwidthBps, observed);
  }

  lemma ExceedsIsOverload(c: Config, order: seq<NodeId>, run: seq<Action>, l: LinkId, k: nat)
    requires ValidConfig(c) && ValidOrder(MetaOf(c), order) && IsRun(c, run) && l in c.links
    requires WindowExceeds(TransitsBy(c, run, l), k, c.links[l].bandwidthBps)
    requires var trace := StateAfter(c, run).value.trace;
      TimeSorted(trace) && Verdict(MetaOf(c), order, trace).Running?
    ensures HasOverload(Verdict(MetaOf(c), order, StateAfter(c, run).value.trace).st.errors, l)
  {
    hide ValidConfig, ValidOrder, Verdict, StateAfter, TransitsBy, PacketsOf, Pacing.PacerAfter, WithinOnePacket, IsUsage,
      IsTooMuch, BitsSent, BruteForceBps;
    var transits, bps := TransitsBy(c, run, l), c.links[l].bandwidthBps;
    SendsAgree(c, order, run, l);
    PacedUntil(transits, k, bps);
    var observed := BruteForceBps(BitsSent(transits[..k + 1]), bps);
    UsageIsBruteForce(BitsSent(transits[..k + 1]), bps);
    TooMuchIsOver(BitsSent(transits[..k + 1]), bps, observed);
    assert OverloadedWithin(transits, k, transits[k].node, transits[k].packet.id, bps, observed);
    OverloadsExactlyInRuns(c, order, run, transits[k].node, l, transits[k].packet.id, bps, observed);
  }

  /** So a link over which a run sends nothing draws no error for its bandwidth, whatever else happens. */
  lemma UnusedLinksAreNotOverloaded(c: Config, order: seq<NodeId>, run: seq<Action>, l: LinkId)
    requires ValidConfig(c) && ValidOrder(MetaOf(c), order) && IsRun(c, run) && l in c.links
    requires TransitsOver(StateAfter(c, run).value.trace, l) == []
    ensures var trace := StateAfter(c, run).value.trace;
      && TimeSorted(trace) && Verdict(MetaOf(c), order, trace).Running?
      && !HasOverload(Verdict(MetaOf(c), order, trace).st.errors, l)
  {
    hide ValidConfig, ValidOrder, Verdict, StateAfter, TransitsBy, SendsOver, Pacing.SendsOf, Pacing.PacerAfter,
      HasOverload, TransitsOver;
    SendsAgree(c, order, run, l);
    LinkOverloadedIff(c, order, run, l);
  }

  /** Nodes whose status no event sets draw no error for being down, whatever else happens. */
  lemma NoEventsNoDownErrors(c: Config, order: seq<NodeId>, run: seq<Action>, n: NodeId, id: PacketId)
    requires ValidConfig(c) && ValidOrder(MetaOf(c), order) && IsRun(c, run)
    requires forall m :: 0 <= m < |run| && run[m].NodeChange? ==>
      run[m].nodeEvent.node != n || run[m].nodeEvent.status.None?
    ensures var trace := StateAfter(c, run).value.trace;
      && TimeSorted(trace) && Verdict(MetaOf(c), order, trace).Running?
      && NodeDownPacketSend(n, id) !in Verdict(MetaOf(c), order, trace).st.errors
      && NodeDownPacketReceive(n, id) !in Verdict(MetaOf(c), order, trace).st.errors
  {
    hide ValidConfig, ValidOrder, Mirrored, Verdict, StateAfter, DownAfter, SetsStatus;
    EveryTraceReplays(c, order, run);
    EventsComeFromActions(c, run, n);
    var trace := StateAfter(c, run).value.trace;
    forall k: nat | k <= |trace|
      ensures !DownAfter(trace[..k], n)
    {
      NoEventsNeverDown(trace[..k], n);
    }
  }

  lemma {:induction false} EventsComeFromActions(c: Config, run: seq<Action>, n: NodeId)
    requires ValidConfig(c) && IsRun(c, run)
    requires forall m :: 0 <= m < |run| && run[m].NodeChange? ==>
      run[m].nodeEvent.node != n || run[m].nodeEvent.status.None?
    ensures var trace := StateAfter(c, run).value.trace;
      forall k :: 0 <= k < |trace| ==> !SetsStatus(trace[k].kind, n)
  {
    hide ValidConfig, Sane, TasksWait, Enabled, Perform, AtRest, SetsStatus;
    if run != [] {
      RunSnoc(c, run);
      hide StateAfter;
      var init := run[..|run| - 1];
      EventsComeFromActions(c, init, n);
      RunsAreSane(c, init);
      ActionSetsNoStatus(c, StateAfter(c, init).value, run[|run| - 1], n);
    }
  }

  lemma ActionSetsNoStatus(c: Config, s: State, a: Action, n: NodeId)
    requires ValidConfig(c) && Sane(c, s) && TasksWait(c, s) && Enabled(c, s, a)
    requires a.NodeChange? ==> a.nodeEvent.node != n || a.nodeEvent.status.None?
    ensures forall k :: |s.trace| <= k < |Perform(c, s, a).trace| ==> !SetsStatus(Perform(c, s, a).trace[k].kind, n)
    ensures s.trace <= Perform(c, s, a).trace
  {
    hide ValidConfig, Sane, TasksWait, Enabled, Perform, LinkActionOutcome;
    if OfLinkTask(a) {
      LinkTaskOutcome(c, s, a);
      OutcomeSetsNoStatus(c, s, a, Perform(c, s, a), WillSend(c, s, a), n);
    } else if a.Create? {
      var kinds := CreateAdds(c, s, a);
    } else if a.RunForwarder? {
      var kinds := ArrivalAdds(c, s, a);
    } else {
      QuietSetsNoStatus(c, s, a, n);
    }
  }

  lemma OutcomeSetsNoStatus(c: Config, s: State, a: Action, s1: State, goes: bool, n: NodeId)
    requires ValidConfig(c) && Sane(c, s) && Enabled(c, s, a) && OfLinkTask(a) && LinkActionOutcome(c, s, a, s1, goes)
    ensures s.trace <= s1.trace
    ensures forall k :: |s.trace| <= k < |s1.trace| ==> !SetsStatus(s1.trace[k].kind, n)
  {
    hide ValidConfig, Sane, Enabled, Tickets;
  }

  lemma QuietSetsNoStatus(c: Config, s: State, a: Action, n: NodeId)
    requires ValidConfig(c) && Sane(c, s) && Enabled(c, s, a)
    requires !OfLinkTask(a) && !a.Create? && !a.RunForwarder?
    requires a.NodeChange? ==> a.nodeEvent.node != n || a.nodeEvent.status.None?
    ensures s.trace <= Perform(c, s, a).trace
    ensures forall k :: |s.trace| <= k < |Perform(c, s, a).trace| ==> !SetsStatus(Perform(c, s, a).trace[k].kind, n)
  {
    if a.RunNodeTask? {
      OffersAddNothing(c, s, a);
    }
    hide ValidConfig, Sane, OfferNext, CreatePacket, PerformOnLink, Candidates;
  }

  /** So the verifier, handed the recorded steps, reports statistics and the errors that have a cause, never a fatal error. */
  lemma EveryReportIsVerified(c: Config, order: seq<NodeId>, run: seq<Action>)
    requires ValidConfig(c) && ValidOrder(MetaOf(c), order) && IsRun(c, run)
    ensures var trace := StateAfter(c, run).value.trace;
      && SortBy(trace, StepTime) == trace && TimeSorted(trace)
      && var report := ReportOf(Verdict(MetaOf(c), order, trace));
         && report.Verified?
         && (forall e :: e in report.errors ==> Explained(c, run, e))
         && (forall e :: Explained(c, run, e) && !e.NodeExceedsBufferSize? ==> e in report.errors)
  {
    hide ValidConfig, ValidOrder, Explained, Mirrored, Verdict, StateAfter, SortBy;
    EveryTraceReplays(c, order, run);
    SortingSortedSteps(StateAfter(c, run).value.trace);
    TimeSortedIs(StateAfter(c, run).value.trace);
  }

  // ----- Sends from nodes that are down: which actions make them -----

  /** Action `m` of the run sends the packet from the node although the node is down. */
  ghost predicate SendsDownAt(c: Config, run: seq<Action>, m: nat, n: NodeId, id: PacketId)
    requires ValidConfig(c)
  {
    && m < |run| && IsRun(c, run[..m])
    && var s := StateAfter(c, run[..m]).value;
       && Sane(c, s) && Enabled(c, s, run[m]) && OfLinkTask(run[m]) && SendsThoughDown(c, s, run[m])
       && FirstRecord(c, s, run[m]).node == n && FirstRecord(c, s, run[m]).packet.id == id
  }

  lemma SendIsFirstAdded(c: Config, s: State, a: Action, k: nat)
    requires ValidConfig(c) && Sane(c, s) && TasksWait(c, s) && Enabled(c, s, a)
    requires |s.trace| <= k < |Perform(c, s, a).trace| && Perform(c, s, a).trace[k].kind.PacketInTransit?
    ensures k == |s.trace| && s.trace <= Perform(c, s, a).trace
  {
    hide ValidConfig, Sane, TasksWait, Enabled, Perform, FirstRecord, WillSend, LinkActionOutcome, RecordsSend;
    var s1 := Perform(c, s, a);
    var step := s1.trace[k];
    assert RecordsSend(s, s1, step.kind.packet, step.kind.node, step.kind.link) by {
      SendAt(s, s1, k);
    }
    SendsExactly(c, s, a, step.kind.packet, step.kind.node, step.kind.link);
    LinkTaskOutcome(c, s, a);
    var kinds := OutcomeAdds(c, s, a, s1, WillSend(c, s, a));
  }

  lemma SendAt(s: State, s1: State, k: nat)
    requires |s.trace| <= k < |s1.trace| && s1.trace[k].kind.PacketInTransit?
    ensures var step := s1.trace[k].kind; RecordsSend(s, s1, step.packet, step.node, step.link)
  {
  }

  /** What one more action adds. */
  lemma NextSendsDown(c: Config, s: State, a: Action, n: NodeId, id: PacketId)
    requires ValidConfig(c) && Sane(c, s) && TasksWait(c, s) && Enabled(c, s, a) && n in s.nodes
    requires NodeUp(s, n) <==> !DownAfter(s.trace, n)
    requires s.trace <= Perform(c, s, a).trace
    ensures (exists k :: SentWhileDown(Perform(c, s, a).trace, k, n, id)) <==>
      (exists k :: SentWhileDown(s.trace, k, n, id))
      || (OfLinkTask(a) && SendsThoughDown(c, s, a)
          && FirstRecord(c, s, a).node == n && FirstRecord(c, s, a).packet.id == id)
  {
    hide ValidConfig, Sane, TasksWait, Enabled, Perform, FirstRecord, WillSend, RecordsSend, SendsThoughDown, DownAfter;
    var s1 := Perform(c, s, a);
    ThoughDownIs(c, s, a);
    if exists k :: SentWhileDown(s.trace, k, n, id) {
      var k: nat :| SentWhileDown(s.trace, k, n, id);
      assert s1.trace[..k] == s.trace[..k];
      assert SentWhileDown(s1.trace, k, n, id);
    }
    if exists k :: SentWhileDown(s1.trace, k, n, id) {
      var k: nat :| SentWhileDown(s1.trace, k, n, id);
      if k < |s.trace| {
        assert s1.trace[..k] == s.trace[..k];
        assert SentWhileDown(s.trace, k, n, id);
      } else {
        SendIsFirstAdded(c, s, a, k);
        assert s1.trace[..k] == s.trace;
        SendAt(s, s1, k);
        SendsExactly(c, s, a, id, n, s1.trace[k].kind.link);
      }
    }
    if OfLinkTask(a) && SendsThoughDown(c, s, a) && FirstRecord(c, s, a).node == n && FirstRecord(c, s, a).packet.id == id {
      SendsExactly(c, s, a, id, n, a.link);
      var k := RecordedAt(s, s1, id, n, a.link);
      SendIsFirstAdded(c, s, a, k);
      assert s1.trace[..k] == s.trace;
      assert SentWhileDown(s1.trace, k, n, id);
    }
  }

  lemma RecordedAt(s: State, s1: State, id: PacketId, n: NodeId, l: LinkId) returns (k: nat)
    requires RecordsSend(s, s1, id, n, l)
    ensures |s.trace| <= k < |s1.trace| && s1.trace[k].kind == PacketInTransit(id, n, l)
  {
    k :| |s.trace| <= k < |s1.trace| && s1.trace[k].kind == PacketInTransit(id, n, l);
  }

  lemma SendsDownSnoc(c: Config, init: seq<Action>, run: seq<Action>, n: NodeId, id: PacketId)
    requires ValidConfig(c) && IsRun(c, run) && run != [] && init == run[..|run| - 1]
    ensures (exists m :: SendsDownAt(c, run, m, n, id)) <==>
      (exists m :: SendsDownAt(c, init, m, n, id)) || SendsDownAt(c, run, |run| - 1, n, id)
  {
    hide ValidConfig, StateAfter, Sane, Enabled, SendsThoughDown, FirstRecord;
    assert forall m :: 0 <= m < |init| ==> init[..m] == run[..m] && init[m] == run[m];
    if exists m :: SendsDownAt(c, run, m, n, id) {
      var m: nat :| SendsDownAt(c, run, m, n, id);
      assert m < |init| ==> SendsDownAt(c, init, m, n, id);
    }
    if exists m :: SendsDownAt(c, init, m, n, id) {
      var m: nat :| SendsDownAt(c, init, m, n, id);
      assert SendsDownAt(c, run, m, n, id);
    }
  }

  lemma {:induction false} SentDownByActions(c: Config, run: seq<Action>, n: NodeId, id: PacketId)
    requires ValidConfig(c) && IsRun(c, run) && n in c.nodes
    ensures (exists k :: SentWhileDown(StateAfter(c, run).value.trace, k, n, id)) <==>
      exists m :: SendsDownAt(c, run, m, n, id)
  {
    hide ValidConfig, Sane, TasksWait, Enabled, Perform, FirstRecord, SendsThoughDown, AtRest;
    if run == [] {
      assert StateAfter(c, run).value.trace == [];
    } else {
      hide StateAfter, SentWhileDown;
      RunSnoc(c, run);
      var init := run[..|run| - 1];
      var s := StateAfter(c, init).value;
      SentDownByActions(c, init, n, id);
      SendsDownSnoc(c, init, run, n, id);
      RunsAreSane(c, init);
      NodeStatusInRuns(c, init, n);
      var kinds := ActionAdds(c, s, run[|run| - 1]);
      NextSendsDown(c, s, run[|run| - 1], n, id);
    }
  }

  /**
   * When packets are sent from a node that is down, for every run: the verdict reports such a send
   * of a packet exactly if some action of the run made it, that is, an action of a link's task whose
   * guard did not look at the node. A task that starts looks at the link's permit, status and pacer;
   * one that let others go first, or waited for this very node, looks at the link's status.
   */
  lemma DownSendsExactlyInRuns(c: Config, order: seq<NodeId>, run: seq<Action>, n: NodeId, id: PacketId)
    requires ValidConfig(c) && ValidOrder(MetaOf(c), order) && IsRun(c, run) && n in c.nodes
    ensures var trace := StateAfter(c, run).value.trace;
      && TimeSorted(trace) && Verdict(MetaOf(c), order, trace).Running?
      && (NodeDownPacketSend(n, id) in Verdict(MetaOf(c), order, trace).st.errors
          <==> exists m :: SendsDownAt(c, run, m, n, id))
  {
    hide ValidConfig, ValidOrder, StateAfter, Verdict, Mirrored, ErrorsExcused, SentWhileDown, SendsDownAt;
    TracesReplay(c, order, run);
    NodeIsKnown(c, n);
    DownSendsReportedExactly(MetaOf(c), order, StateAfter(c, run).value.trace, n, id);
    SentDownByActions(c, run, n, id);
  }

  /** In every run, no action fails an assertion in `send` but a task that let others go first and lost its link. */
  lemma OnlyYieldedTasksFail(c: Config, run: seq<Action>, a: Action)
    requires ValidConfig(c) && IsRun(c, run)
    requires Sane(c, StateAfter(c, run).value) && Enabled(c, StateAfter(c, run).value, a)
    requires Perform(c, StateAfter(c, run).value, a).crashed
    ensures a.ResumeLinkTask? && a.link in StateAfter(c, run).value.links
    ensures var s := StateAfter(c, run).value;
      s.links[a.link].task.Yielded? && HasTurn(a.link, s.links[a.link].task.offer) && !LinkUp(s, a.link)
  {
    hide ValidConfig, Sane, TasksWait, StateAfter, Perform, Enabled, AtRest;
    var s := StateAfter(c, run).value;
    RunsAreSane(c, run);
    FailedTaskIs(c, s, a);
  }

  /**
   * In every run, whatever status events interleave: a task that stops waiting for its link to be
   * ready, with its packet still to be sent, finds the link up and its pacer free.
   */
  lemma WaitsEndReadyInRuns(c: Config, run: seq<Action>, l: LinkId)
    requires ValidConfig(c) && IsRun(c, run)
    requires Sane(c, StateAfter(c, run).value) && Enabled(c, StateAfter(c, run).value, ResumeLinkTask(l))
    requires var s := StateAfter(c, run).value; PermitHeld(s.links[l].task) && !Handled(s, s.links[l].task.offer)
    ensures var s := StateAfter(c, run).value;
      var s1 := Perform(c, s, ResumeLinkTask(l));
      l in s1.links && !PermitHeld(s1.links[l].task) ==> LinkUp(s, l) && Pacing.CanSend(s.links[l].sendDone, s.now)
  {
    hide ValidConfig, StateAfter, Sane, TasksWait, Perform, Enabled, AtRest;
    RunsAreSane(c, run);
    WaitsEndReady(c, StateAfter(c, run).value, l);
  }
}
