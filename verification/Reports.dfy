/** What the verifier's report says, field by field, in terms of the trace alone. */
module Reports {
  import opened Types
  import opened NodeReplay
  import opened BandwidthWindow
  import opened Replay
  import opened BufferCheck
  import opened BufferOrder
  import opened ReplayTotals
  import opened TraceCounters
  import opened TraceJudgement
  import opened LinkErrors
  import opened Verifier
  import Simulator
  import Network
  import Agreement
  import RunStates
  import RunSends
  import VerifiedRuns
  import Pacing

  /** Each counter has the packets and the bytes of the steps that count for it. */
  predicate CountsRight(stats: NodeStats, trace: seq<Step>, n: NodeId) {
    && stats.sent == Count(Sending, trace, n)
    && stats.received == Count(Receiving, trace, n)
    && stats.receivedOutOfOrder == Count(Counter.Overtaken, trace, n)
    && stats.duplicates == Count(Duplicating, trace, n)
    && stats.droppedInjected == Count(DroppingFor(Random), trace, n)
    && stats.droppedBufferFull == Count(DroppingFor(BufferFull), trace, n)
    && stats.droppedBufferCleared == Count(DroppingFor(BufferCleared), trace, n)
    && stats.droppedOnArrival == Count(DroppingOnArrival, trace, n)
    && stats.congestionExperienced == Count(Congestion, trace, n)
  }

  /** The largest usage at any send over the link, or zero if there is no send. */
  ghost predicate IsPeak(meta: Meta, trace: seq<Step>, l: LinkId, most: nat) {
    if l in meta.links && SendsAlong(trace, l) != []
    then IsMaxUsage(SendsAlong(trace, l), meta.links[l].bandwidthBps, most) else most == 0
  }

  lemma FinishKeepsCounters(meta: Meta, order: seq<NodeId>, trace: seq<Step>, n: NodeId, c: Counter)
    requires ValidOrder(meta, order) && TimeSorted(trace) && Verdict(meta, order, trace).Running? && n in meta.bufferSizes
    ensures n in Verdict(meta, order, trace).st.nodes
    ensures CounterOf(Verdict(meta, order, trace).st.nodes[n], c) == Count(c, trace, n)
  {
    hide ReplayTrace, WellFormed, ValidOrder, CounterOf, UpdateMaxUsage, Count;
    CountersFollowTrace(meta, order, trace, n, c);
    CheckKeepsCounters(ReplayTrace(meta, order, trace).st.nodes[n], c);
    VerdictChecks(meta, order, trace);
    NodesKnown(meta, ReplayTrace(meta, order, trace).st);
  }

  lemma CountersAreRight(view: NodeView, stats: NodeStats, trace: seq<Step>, n: NodeId)
    requires forall c :: CounterOf(view, c) == Count(c, trace, n)
    requires stats == StatsOfNode(view)
    ensures CountsRight(stats, trace, n)
  {
    hide Count;
    assert CounterOf(view, Sending) == view.sent && CounterOf(view, Receiving) == view.received;
    assert CounterOf(view, Counter.Overtaken) == view.reordered && CounterOf(view, Duplicating) == view.duplicated;
    assert CounterOf(view, DroppingFor(Random)) == view.droppedInjected;
    assert CounterOf(view, DroppingFor(BufferFull)) == view.droppedBufferFull;
    assert CounterOf(view, DroppingFor(BufferCleared)) == view.droppedBufferCleared;
    assert CounterOf(view, DroppingOnArrival) == view.droppedDown && CounterOf(view, Congestion) == view.ecn;
  }

  lemma NodeIsReported(meta: Meta, order: seq<NodeId>, trace: seq<Step>, n: NodeId)
    requires ValidOrder(meta, order) && TimeSorted(trace) && Verdict(meta, order, trace).Running? && n in meta.bufferSizes
    ensures var report := ReportOf(Verdict(meta, order, trace)); n in report.nodes && CountsRight(report.nodes[n], trace, n)
  {
    hide Verdict, ValidOrder, CounterOf, Count, CountsRight, StatsOfNode;
    forall c: Counter
      ensures n in Verdict(meta, order, trace).st.nodes
      ensures CounterOf(Verdict(meta, order, trace).st.nodes[n], c) == Count(c, trace, n)
    {
      FinishKeepsCounters(meta, order, trace, n, c);
    }
    FinishKeepsCounters(meta, order, trace, n, Sending);
    var view := Verdict(meta, order, trace).st.nodes[n];
    CountersAreRight(view, StatsOfNode(view), trace, n);
  }

  lemma PeakIs(meta: Meta, order: seq<NodeId>, trace: seq<Step>, l: LinkId)
    requires ValidOrder(meta, order) && TimeSorted(trace) && ReplayTrace(meta, order, trace).Running? && l in meta.links
    ensures l in ReplayTrace(meta, order, trace).st.links
    ensures IsPeak(meta, trace, l, ReplayTrace(meta, order, trace).st.links[l].maxBps)
  {
    hide ReplayTrace, ValidOrder, SendsOver, SendsAlong, IsMaxUsage;
    SendsAlongAre(meta, order, trace, l);
    if SendsAlong(trace, l) != [] {
      ReportedBandwidthIsMaximum(meta, order, trace, l);
    } else {
      hide IsPeak;
      LinkSeesSends(meta, order, trace, l);
      NoSendsNoPeak(meta, ReplayTrace(meta, order, trace).st.links, l, trace);
    }
  }

  lemma NoSendsNoPeak(meta: Meta, links: map<LinkId, LinkView>, l: LinkId, trace: seq<Step>)
    requires SentOver(meta, links, l, []) && SendsAlong(trace, l) == []
    ensures l in links && IsPeak(meta, trace, l, links[l].maxBps)
  {
  }

  lemma LinkIsReported(meta: Meta, order: seq<NodeId>, trace: seq<Step>, l: LinkId)
    requires ValidOrder(meta, order) && TimeSorted(trace) && Verdict(meta, order, trace).Running?
    ensures var report := ReportOf(Verdict(meta, order, trace));
      && (l in report.links <==> l in meta.links || LossesOn(trace, l).packets > 0)
      && (l in report.links ==>
            report.links[l].droppedInTransit == LossesOn(trace, l)
            && IsPeak(meta, trace, l, report.links[l].maxUsedBandwidthBps))
  {
    hide ReplayTrace, ValidOrder, UpdateMaxBufferUsage, LossesOn, StatsOfNode, SumSizes, SumBits;
    VerdictChecks(meta, order, trace);
    LinkKeys(meta, ReplayTrace(meta, order, trace).st);
    LossesFollowTrace(meta, order, trace, l);
    if l in meta.links {
      PeakIs(meta, order, trace, l);
    }
    hide WellFormed, IsMaxUsage, SendsAlong;
  }

  /**
   * On every trace that can be replayed, the report lists each node with the number and the bytes of
   * exactly the steps of each kind that concern it, and the most it held at the end of an instant;
   * and each link with the packets lost on it and its peak usage. A link that does not exist is
   * listed as well if a step says that it lost a packet.
   */
  lemma ReportsAreRight(meta: Meta, order: seq<NodeId>, trace: seq<Step>)
    requires ValidOrder(meta, order) && TimeSorted(trace) && Verdict(meta, order, trace).Running?
    ensures var report := ReportOf(Verdict(meta, order, trace));
      && report.Verified? && report.errors == Verdict(meta, order, trace).st.errors
      && report.nodes.Keys == meta.bufferSizes.Keys
      && (forall n :: n in report.nodes ==> CountsRight(report.nodes[n], trace, n))
      && (forall p :: 0 <= p < |order| ==>
            && order[p] in report.nodes
            && MostWhileFine(meta, order, trace, AllEnds(trace), p, report.nodes[order[p]].maxBufferUsage))
      && (forall l :: l in report.links <==> l in meta.links || LossesOn(trace, l).packets > 0)
      && (forall l :: l in report.links ==>
            report.links[l].droppedInTransit == LossesOn(trace, l)
            && IsPeak(meta, trace, l, report.links[l].maxUsedBandwidthBps))
  {
    var report := ReportOf(Verdict(meta, order, trace));
    NodesListed(meta, order, trace);
    BuffersAreJudgedInOrder(meta, order, trace);
    hide Verdict, ValidOrder, CountsRight, MostWhileFine, LossesOn, IsPeak, IsBufferFault, AllEnds, StatsOfLinks;
    forall n | n in report.nodes
      ensures CountsRight(report.nodes[n], trace, n)
    {
      NodeIsReported(meta, order, trace, n);
    }
    hide ReportOf;
    forall l
      ensures l in report.links <==> l in meta.links || LossesOn(trace, l).packets > 0
      ensures l in report.links ==>
        report.links[l].droppedInTransit == LossesOn(trace, l)
        && IsPeak(meta, trace, l, report.links[l].maxUsedBandwidthBps)
    {
      LinkIsReported(meta, order, trace, l);
    }
  }

  lemma NodesListed(meta: Meta, order: seq<NodeId>, trace: seq<Step>)
    requires ValidOrder(meta, order) && TimeSorted(trace) && Verdict(meta, order, trace).Running?
    ensures ReportOf(Verdict(meta, order, trace)).Verified?
    ensures ReportOf(Verdict(meta, order, trace)).nodes.Keys == meta.bufferSizes.Keys
  {
    hide ReplayTrace, UpdateMaxBufferUsage, StatsOfLinks, SumSizes, SumBits;
    VerdictChecks(meta, order, trace);
    LinkKeys(meta, ReplayTrace(meta, order, trace).st);
  }

  lemma TransitsAreSends(transits: seq<RunSends.Transit>)
    ensures Pacing.SendsOf(RunSends.PacketsOf(transits)) == RunSends.BitsSent(transits)
  {
  }

  /** In every run, the peak reported for a link is the largest usage at any of the sends that the link's task made. */
  lemma PeaksInRuns(c: Network.Config, order: seq<NodeId>, run: seq<Simulator.Action>, l: LinkId)
    requires Network.ValidConfig(c) && ValidOrder(Agreement.MetaOf(c), order) && RunStates.IsRun(c, run) && l in c.links
    ensures var trace, sends := RunStates.StateAfter(c, run).value.trace, RunSends.BitsSent(RunSends.TransitsBy(c, run, l));
      && TimeSorted(trace)
      && var report := ReportOf(Verdict(Agreement.MetaOf(c), order, trace));
         && report.Verified? && l in report.links
         && if sends == [] then report.links[l].maxUsedBandwidthBps == 0
            else IsMaxUsage(sends, c.links[l].bandwidthBps, report.links[l].maxUsedBandwidthBps)
  {
    hide Network.ValidConfig, ValidOrder, RunStates.StateAfter, Verdict, RunSends.TransitsBy, RunSends.BitsSent,
      SendsOver, SendsAlong, IsMaxUsage, ReplayTrace, Pacing.SendsOf, RunSends.PacketsOf, Pacing.PacerAfter, LossesOn;
    var meta, trace := Agreement.MetaOf(c), RunStates.StateAfter(c, run).value.trace;
    VerifiedRuns.TracesReplay(c, order, run);
    VerifiedRuns.ReplayRuns(meta, order, trace);
    VerifiedRuns.LinkIsKnown(c, l);
    RunSends.SendsAgree(c, order, run, l);
    TransitsAreSends(RunSends.TransitsBy(c, run, l));
    SendsAlongAre(meta, order, trace, l);
    NodesListed(meta, order, trace);
    LinkIsReported(meta, order, trace, l);
  }
}
