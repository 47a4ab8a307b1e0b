/** What in a trace causes the errors about links: arrivals despite a Down update, and too much bandwidth. */
module LinkErrors {
  import opened Types
  import opened BandwidthWindow
  import opened NodeReplay
  import opened Replay
  import opened ReplayTotals
  import opened TraceFlights
  import opened ErrorCauses

  // ----- Arrivals over links that went down -----

  predicate TakesDown(k: StepKind, l: LinkId) {
    k.NetworkEvent? && k.linkEvent == Some(LinkEvent(l, Some(GoDown)))
  }

  /** The time of the last Down update of the link. */
  function LastDownOf(trace: seq<Step>, l: LinkId): Option<Time> {
    if trace == [] then None
    else if TakesDown(trace[|trace| - 1].kind, l) then Some(trace[|trace| - 1].time)
    else LastDownOf(trace[..|trace| - 1], l)
  }

  lemma StepTakesDown(meta: Meta, st: ReplayState, t: Time, k: StepKind, l: LinkId)
    requires WellFormed(meta, st) && st.lastStepTime == t && ApplyStep(meta, st, t, k).Running? && l in st.links
    ensures var st1 := ApplyStep(meta, st, t, k).st;
      l in st1.links && st1.links[l].lastDown == if TakesDown(k, l) then Some(t) else st.links[l].lastDown
  {
    hide SumSizes, SumBits, Tallied, UsedBps, ArrivalErrors, Created, Received, Sent, NodeStep, Expire;
  }

  lemma AdvanceKeepsLinks(meta: Meta, order: seq<NodeId>, st: ReplayState, t: Time)
    requires ValidOrder(meta, order) && WellFormed(meta, st) && st.lastStepTime <= t
    ensures AdvanceTo(meta, order, st, t).links == st.links
  {
    hide UpdateMaxBufferUsage;
  }

  lemma {:induction false} DownsFollowTrace(meta: Meta, order: seq<NodeId>, trace: seq<Step>, l: LinkId)
    requires ValidOrder(meta, order) && TimeSorted(trace) && ReplayTrace(meta, order, trace).Running? && l in meta.links
    ensures l in ReplayTrace(meta, order, trace).st.links
    ensures ReplayTrace(meta, order, trace).st.links[l].lastDown == LastDownOf(trace, l)
  {
    hide WellFormed, AdvanceTo, ApplyStep, ValidOrder, TakesDown;
    if trace != [] {
      LastStep(meta, order, trace);
      hide ReplayTrace;
      var init, step := trace[..|trace| - 1], trace[|trace| - 1];
      DownsFollowTrace(meta, order, init, l);
      var st := ReplayTrace(meta, order, init).st;
      AdvanceKeepsLinks(meta, order, st, step.time);
      StepTakesDown(meta, AdvanceTo(meta, order, st, step.time), step.time, step.kind, l);
    }
  }

  /**
   * At step `k` a packet comes off the link into the node that went onto it at `sent`, and
   * `lastDown`, the time of the link's last Down update until then, is not before that.
   */
  predicate CameOffline(trace: seq<Step>, k: nat, n: NodeId, l: LinkId, sent: Time, lastDown: Time) {
    && k < |trace| && trace[k].kind.PacketInNode? && trace[k].kind.node == n
    && trace[k].kind.packet in Flights(trace[..k]) && Flights(trace[..k])[trace[k].kind.packet] == Flight(l, sent)
    && LastDownOf(trace[..k], l) == Some(lastDown) && sent <= lastDown
  }

  lemma OfflineDrawn(meta: Meta, order: seq<NodeId>, trace: seq<Step>, k: nat, n: NodeId, l: LinkId, sent: Time,
                     lastDown: Time)
    requires ValidOrder(meta, order) && TimeSorted(trace) && ReplayTrace(meta, order, trace).Running? && l in meta.links
    ensures DrawnAt(meta, order, trace, k, OfflinePacketReceive(n, l, sent, lastDown))
       <==> CameOffline(trace, k, n, l, sent, lastDown)
  {
    hide ReplayTrace, ValidOrder, WellFormed, AdvanceTo, Flights, LastDownOf;
    if k < |trace| {
      PrefixReplays(meta, order, trace, k);
      var st := ReplayTrace(meta, order, trace[..k]).st;
      DownsFollowTrace(meta, order, trace[..k], l);
      AdvanceKeepsLinks(meta, order, st, trace[k].time);
      FlightsFollowTrace(meta, order, trace[..k]);
      AdvanceKeepsFlights(meta, order, st, trace[k].time);
    }
  }

  /** On every replayed trace: an arrival over a link that went down is reported exactly if there is one. */
  lemma OfflineArrivalsReportedExactly(meta: Meta, order: seq<NodeId>, trace: seq<Step>, n: NodeId, l: LinkId,
                                       sent: Time, lastDown: Time)
    requires ValidOrder(meta, order) && TimeSorted(trace) && Verdict(meta, order, trace).Running? && l in meta.links
    ensures OfflinePacketReceive(n, l, sent, lastDown) in Verdict(meta, order, trace).st.errors <==>
      exists k :: CameOffline(trace, k, n, l, sent, lastDown)
  {
    hide ReplayTrace, Verdict, ValidOrder, DrawnAt, CameOffline;
    var e := OfflinePacketReceive(n, l, sent, lastDown);
    VerdictIsDrawn(meta, order, trace, e);
    forall k: nat
      ensures DrawnAt(meta, order, trace, k, e) <==> CameOffline(trace, k, n, l, sent, lastDown)
    {
      OfflineDrawn(meta, order, trace, k, n, l, sent, lastDown);
    }
  }

  // ----- Bandwidth -----

  /**
   * Step `k` sends the packet over the link, and the sends over the link until then that are in the
   * window, added up anew, come to `observed` bits per second: more than the link's bandwidth.
   */
  ghost predicate SentBeyond(meta: Meta, order: seq<NodeId>, trace: seq<Step>, k: nat, n: NodeId, l: LinkId,
                             id: PacketId, most: nat, observed: nat)
    requires ValidOrder(meta, order) && TimeSorted(trace)
  {
    && k < |trace| && trace[k].kind == PacketInTransit(id, n, l)
    && l in meta.links && most == meta.links[l].bandwidthBps && most < observed
    && var sends := SendsOver(meta, order, trace[..k + 1], l);
       sends != [] && observed == BruteForceBps(sends, most)
  }

  /** Step `k` is replayed in the state `st`. */
  ghost predicate StandsAt(meta: Meta, order: seq<NodeId>, trace: seq<Step>, k: nat, st: ReplayState)
    requires ValidOrder(meta, order) && TimeSorted(trace)
  {
    && k < |trace| && ReplayTrace(meta, order, trace[..k]).Running?
    && st == AdvanceTo(meta, order, ReplayTrace(meta, order, trace[..k]).st, trace[k].time)
  }

  lemma StandsSomewhere(meta: Meta, order: seq<NodeId>, trace: seq<Step>, k: nat) returns (st: ReplayState)
    requires ValidOrder(meta, order) && TimeSorted(trace) && ReplayTrace(meta, order, trace).Running? && k < |trace|
    ensures StandsAt(meta, order, trace, k, st) && WellFormed(meta, st) && st.lastStepTime == trace[k].time
    ensures ApplyStep(meta, st, trace[k].time, trace[k].kind).Running?
  {
    hide ReplayTrace, ValidOrder, AdvanceTo, ApplyStep, WellFormed;
    var upTo := trace[..k + 1];
    assert upTo[..|upTo| - 1] == trace[..k] && upTo[k] == trace[k];
    PrefixReplays(meta, order, trace, k);
    PrefixReplays(meta, order, trace, k + 1);
    LastStep(meta, order, upTo);
    st := AdvanceTo(meta, order, ReplayTrace(meta, order, trace[..k]).st, trace[k].time);
  }

  lemma SentFrom(meta: Meta, st: ReplayState, t: Time, k: StepKind)
    requires WellFormed(meta, st) && st.lastStepTime == t && k.PacketInTransit? && ApplyStep(meta, st, t, k).Running?
    ensures k.node in st.nodes && k.packet in st.nodes[k.node].packets
    ensures SendBy(st, t, k, k.link) == [Send(t, st.nodes[k.node].packets[k.packet].size * 8)]
  {
    SendIs(meta, st, t, k);
    hide WellFormed, StepInTransit;
  }

  lemma NextSendIs(meta: Meta, order: seq<NodeId>, trace: seq<Step>, k: nat, st: ReplayState, l: LinkId)
    requires ValidOrder(meta, order) && TimeSorted(trace) && StandsAt(meta, order, trace, k, st)
    ensures SendsOver(meta, order, trace[..k + 1], l)
         == SendsOver(meta, order, trace[..k], l) + SendBy(st, trace[k].time, trace[k].kind, l)
  {
    hide ReplayTrace, ValidOrder, AdvanceTo, WellFormed, SendBy;
    var upTo := trace[..k + 1];
    assert upTo[..|upTo| - 1] == trace[..k] && upTo[k] == trace[k];
    AdvanceKeepsSends(meta, order, ReplayTrace(meta, order, trace[..k]).st, trace[k].time, l);
  }

  lemma LinkAt(meta: Meta, order: seq<NodeId>, trace: seq<Step>, k: nat, st: ReplayState, l: LinkId)
    requires ValidOrder(meta, order) && TimeSorted(trace) && StandsAt(meta, order, trace, k, st) && l in meta.links
    ensures SentOver(meta, st.links, l, SendsOver(meta, order, trace[..k], l))
  {
    hide ReplayTrace, ValidOrder, AdvanceTo, WellFormed, SendsOver, SentOver;
    AdvanceKeepsLinks(meta, order, ReplayTrace(meta, order, trace[..k]).st, trace[k].time);
    LinkSeesSends(meta, order, trace[..k], l);
  }

  /** What the verifier computes at a send is the brute-force usage of all the sends until then. */
  lemma UsageAtSend(meta: Meta, order: seq<NodeId>, trace: seq<Step>, k: nat, st: ReplayState, size: nat)
    requires ValidOrder(meta, order) && TimeSorted(trace) && StandsAt(meta, order, trace, k, st)
    requires k < |trace| && trace[k].kind.PacketInTransit? && trace[k].kind.link in meta.links
    requires SendBy(st, trace[k].time, trace[k].kind, trace[k].kind.link) == [Send(trace[k].time, size * 8)]
    ensures trace[k].kind.link in st.links
    ensures var l := trace[k].kind.link;
      var sends, bps := SendsOver(meta, order, trace[..k + 1], l), meta.links[l].bandwidthBps;
      sends != [] && BruteForceBps(sends, bps) == UsedBps(PacketSent(st.links[l], trace[k].time, size, bps), bps)
  {
    hide ReplayTrace, ValidOrder, StandsAt, WellFormed, BruteForceBps, AfterSends, PacketSent, UsedBps, SendsOver,
      SendsSorted, SendBy;
    var l := trace[k].kind.link;
    NextSendIs(meta, order, trace, k, st, l);
    LinkAt(meta, order, trace, k, st, l);
    SendsInOrder(meta, order, trace[..k + 1], l);
    WindowIsBruteForce(SendsOver(meta, order, trace[..k + 1], l), meta.links[l].bandwidthBps);
    UsageAfterSend(meta, st.links, l, SendsOver(meta, order, trace[..k], l), trace[k].time, size);
  }

  lemma UsageAfterSend(meta: Meta, links: map<LinkId, LinkView>, l: LinkId, sends: seq<Send>, t: Time, size: nat)
    requires SentOver(meta, links, l, sends)
    ensures var bps := meta.links[l].bandwidthBps;
      UsedBps(AfterSends(sends + [Send(t, size * 8)], bps), bps) == UsedBps(PacketSent(links[l], t, size, bps), bps)
  {
    hide AfterSends, RecordSend;
    RecordAfterSends(links[l], sends, Send(t, size * 8), meta.links[l].bandwidthBps);
  }

  lemma OverloadDrawn(meta: Meta, order: seq<NodeId>, trace: seq<Step>, k: nat, n: NodeId, l: LinkId, id: PacketId,
                      most: nat, observed: nat)
    requires ValidOrder(meta, order) && TimeSorted(trace) && ReplayTrace(meta, order, trace).Running?
    ensures DrawnAt(meta, order, trace, k, LinkBandwidthExceeded(n, l, id, most, observed))
       <==> SentBeyond(meta, order, trace, k, n, l, id, most, observed)
  {
    hide ReplayTrace, ValidOrder, WellFormed, AdvanceTo, SendsOver, BruteForceBps, PacketSent, UsedBps, AfterSends, SendBy,
      ApplyStep;
    if k < |trace| && Sends(trace[k].kind, n, id) && trace[k].kind.link == l && l in meta.links {
      var st := StandsSomewhere(meta, order, trace, k);
      SentFrom(meta, st, trace[k].time, trace[k].kind);
      UsageAtSend(meta, order, trace, k, st, st.nodes[n].packets[id].size);
    }
  }

  /**
   * On every replayed trace: a link is reported as over its bandwidth, at a packet and with a
   * figure, exactly if some step sends that packet over it and this is the usage at that send, found
   * by adding up all its sends anew, and too much.
   */
  lemma OverloadsReportedExactly(meta: Meta, order: seq<NodeId>, trace: seq<Step>, n: NodeId, l: LinkId, id: PacketId,
                                 most: nat, observed: nat)
    requires ValidOrder(meta, order) && TimeSorted(trace) && Verdict(meta, order, trace).Running?
    ensures LinkBandwidthExceeded(n, l, id, most, observed) in Verdict(meta, order, trace).st.errors <==>
      exists k :: SentBeyond(meta, order, trace, k, n, l, id, most, observed)
  {
    hide ReplayTrace, Verdict, ValidOrder, DrawnAt, SentBeyond;
    var e := LinkBandwidthExceeded(n, l, id, most, observed);
    VerdictIsDrawn(meta, order, trace, e);
    forall k: nat
      ensures DrawnAt(meta, order, trace, k, e) <==> SentBeyond(meta, order, trace, k, n, l, id, most, observed)
    {
      OverloadDrawn(meta, order, trace, k, n, l, id, most, observed);
    }
  }
}
