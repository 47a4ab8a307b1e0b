/** What the verifier has tracked by the time it gives up on a trace, in terms of the trace alone. */
module Failures {
  import opened Types
  import opened NodeReplay
  import opened BandwidthWindow
  import opened Replay
  import opened BufferCheck
  import opened BufferOrder
  import opened ReplayTotals
  import opened TraceFlights
  import opened TraceHoldings
  import opened TraceFacts
  import opened ErrorCauses
  import opened LinkErrors
  import opened TraceJudgement
  import Verifier

  /** What is held against a send on account of its link: not looked at if the send itself fails. */
  predicate OnAccountOfLink(e: NonFatalError) {
    OfSending(e) || e.LinkBandwidthExceeded?
  }

  /** What the step that ends the replay still draws. */
  predicate DrawsInFailing(meta: Meta, st: ReplayState, t: Time, k: StepKind, e: NonFatalError) {
    Draws(meta, st, t, k, e) && !(k.PacketInTransit? && OnAccountOfLink(e))
  }

  lemma AddingDraws(view: NodeView, k: StepKind, t: Time, e: NonFatalError)
    requires k.PacketInNode?
    ensures var r := Received(view, k.node, k.packet, k.number, k.size, k.droppedOnArrival, t);
      r.NodeFatal? ==> (e in r.errors <==> !view.up && !k.droppedOnArrival && e == NodeDownPacketReceive(k.node, k.packet))
                       && !k.droppedOnArrival
    ensures var r := Created(view, k.node, k.packet, k.size, t);
      r.NodeFatal? ==> (e in r.errors <==> !view.up && e == NodeDownPacketReceive(k.node, k.packet))
  {
  }

  /** A packet off a link: what is held against it, given what its node is known to say. */
  lemma LandingDraws(meta: Meta, st: ReplayState, t: Time, k: StepKind, e: NonFatalError)
    requires WellFormed(meta, st) && st.lastStepTime == t && k.PacketInNode? && k.packet in st.inFlight
    requires st.inFlight[k.packet].link in meta.links && st.inFlight[k.packet].link in st.links
    ensures Draws(meta, st, t, k, e) <==>
      || ArrivalDraws(meta, st, st.inFlight[k.packet], k.node, t, e)
      || (k.node in st.nodes && !st.nodes[k.node].up && !k.droppedOnArrival && e == NodeDownPacketReceive(k.node, k.packet))
      || (k.node in st.nodes && st.nodes[k.node].up && k.droppedOnArrival
          && e == NodeUpPacketDroppedOnArrival(k.node, k.packet))
  {
    hide WellFormed, PacketSent, UsedBps;
  }

  lemma LandingFails(meta: Meta, st: ReplayState, t: Time, k: StepKind, e: NonFatalError)
    requires WellFormed(meta, st) && st.lastStepTime == t && k.PacketInNode? && k.packet in st.inFlight
    requires StepInNode(meta, st, t, k).Failed?
    ensures e in StepInNode(meta, st, t, k).errors <==> e in st.errors || Draws(meta, st, t, k, e)
  {
    var f := st.inFlight[k.packet];
    ArrivalErrorsAre(meta, st, f, k.node, t, e);
    LandingDraws(meta, st, t, k, e);
    hide Received, Created, ArrivalErrors, ArrivalDraws, Draws, WellFormed;
    AppendIn(st.errors, ArrivalErrors(meta, st, f, k.node, t), e);
    if k.node in st.nodes {
      AddingDraws(st.nodes[k.node], k, t, e);
      var received := Received(st.nodes[k.node], k.node, k.packet, k.number, k.size, k.droppedOnArrival, t);
      AppendIn(st.errors + ArrivalErrors(meta, st, f, k.node, t), received.errors, e);
    }
  }

  lemma CreationDrawsAnywhere(meta: Meta, st: ReplayState, t: Time, k: StepKind, e: NonFatalError)
    requires k.PacketInNode? && k.packet !in st.inFlight
    ensures Draws(meta, st, t, k, e) <==>
      || (k.node !in meta.hosts && e == PacketCreatedByRouterNode(k.node, k.packet))
      || (k.node in st.nodes && !st.nodes[k.node].up && e == NodeDownPacketReceive(k.node, k.packet))
  {
    hide PacketSent, UsedBps;
  }

  lemma CreationFails(meta: Meta, st: ReplayState, t: Time, k: StepKind, e: NonFatalError)
    requires WellFormed(meta, st) && st.lastStepTime == t && k.PacketInNode? && k.packet !in st.inFlight
    requires StepInNode(meta, st, t, k).Failed?
    ensures e in StepInNode(meta, st, t, k).errors <==> e in st.errors || Draws(meta, st, t, k, e)
  {
    CreationDrawsAnywhere(meta, st, t, k, e);
    hide Received, Created, ArrivalErrors, Draws, WellFormed;
    var first: seq<NonFatalError> := if k.node in meta.hosts then [] else [PacketCreatedByRouterNode(k.node, k.packet)];
    AppendIn(st.errors, first, e);
    if k.node in st.nodes {
      AddingDraws(st.nodes[k.node], k, t, e);
      AppendIn(st.errors + first, Created(st.nodes[k.node], k.node, k.packet, k.size, t).errors, e);
    }
  }

  lemma SentDrawsInFailing(meta: Meta, st: ReplayState, t: Time, k: StepKind, e: NonFatalError)
    requires k.PacketInTransit?
    ensures DrawsInFailing(meta, st, t, k, e) <==> k.node in st.nodes && SentDraws(st.nodes[k.node], k.node, k.packet, e)
  {
    hide PacketSent, UsedBps;
  }

  lemma SentFails(view: NodeView, n: NodeId, id: PacketId, e: NonFatalError)
    requires Tallied(view)
    ensures e in Sent(view, n, id).errors <==> SentDraws(view, n, id, e)
  {
    hide SumSizes;
  }

  lemma TransitFails(meta: Meta, st: ReplayState, t: Time, k: StepKind, e: NonFatalError)
    requires WellFormed(meta, st) && st.lastStepTime == t && k.PacketInTransit? && StepInTransit(meta, st, t, k).Failed?
    ensures e in StepInTransit(meta, st, t, k).errors <==> e in st.errors || DrawsInFailing(meta, st, t, k, e)
  {
    SentDrawsInFailing(meta, st, t, k, e);
    if k.node in st.nodes {
      assert Tallied(st.nodes[k.node]);
      hide WellFormed, Tallied, Sent, SendOnLink, SentDraws, DrawsInFailing;
      SentFails(st.nodes[k.node], k.node, k.packet, e);
      AppendIn(st.errors, Sent(st.nodes[k.node], k.node, k.packet).errors, e);
    }
  }

  lemma CallDraws(meta: Meta, st: ReplayState, t: Time, k: StepKind, e: NonFatalError)
    requires IsNodeStep(k)
    ensures k.node !in st.nodes ==> !Draws(meta, st, t, k, e)
    ensures k.node in st.nodes && Tallied(st.nodes[k.node]) ==>
      var r := NodeStep(st.nodes[k.node], t, k); r.NodeFatal? ==> (e in r.errors <==> Draws(meta, st, t, k, e))
  {
    hide SumSizes;
  }

  lemma EventFails(meta: Meta, st: ReplayState, t: Time, k: StepKind, e: NonFatalError)
    requires k.NetworkEvent? && StepEvent(st, t, k).Failed?
    ensures StepEvent(st, t, k).errors == st.errors && !Draws(meta, st, t, k, e)
  {
    hide SetStatus, HandleEvent;
  }

  /** A step that cannot be replayed draws what it draws, but for what is held against it on account of a link. */
  lemma FailureTracks(meta: Meta, st: ReplayState, t: Time, k: StepKind, e: NonFatalError)
    requires WellFormed(meta, st) && st.lastStepTime == t && ApplyStep(meta, st, t, k).Failed?
    ensures e in ApplyStep(meta, st, t, k).errors <==> e in st.errors || DrawsInFailing(meta, st, t, k, e)
  {
    hide StepInNode, StepInTransit, StepEvent, NodeStep, SumSizes, SumBits, Draws;
    if k.PacketInNode? {
      if k.packet in st.inFlight {
        LandingFails(meta, st, t, k, e);
      } else {
        CreationFails(meta, st, t, k, e);
      }
    } else if k.PacketInTransit? {
      hide DrawsInFailing;
      TransitFails(meta, st, t, k, e);
    } else if k.NetworkEvent? {
      EventFails(meta, st, t, k, e);
    } else {
      CallDraws(meta, st, t, k, e);
      if k.node in st.nodes {
        AppendIn(st.errors, NodeStep(st.nodes[k.node], t, k).errors, e);
      }
    }
  }

  // ----- Whole traces -----

  /** The instants that ended by the time that step `k` is looked at. */
  function EndsUntil(trace: seq<Step>, k: nat): set<nat>
    requires k < |trace|
  {
    EndsBefore(trace, k + 1)
  }

  /** What is wrong with step `k`, which ends the replay. */
  predicate IsLastFault(meta: Meta, trace: seq<Step>, k: nat, e: NonFatalError)
    requires k < |trace|
  {
    IsFault(meta, trace, k, e) && !(trace[k].kind.PacketInTransit? && OnAccountOfLink(e))
  }

  lemma FaultOfPart(meta: Meta, trace: seq<Step>, k: nat, j: nat, e: NonFatalError)
    requires j < k <= |trace|
    ensures IsFault(meta, trace[..k], j, e) <==> IsFault(meta, trace, j, e)
  {
    hide DownAfter, HeldIn, LastClear, LinkDownAfter, LastDownOf, Flights, CargoOf, LastSend, IsUsage, SendsAlong, PutsIn,
      ComesOff, ComesTooSoon;
    assert trace[..k][..j] == trace[..j] && trace[..k][j] == trace[j] && trace[..k][..j + 1] == trace[..j + 1];
  }

  lemma LastFaultIsDrawn(meta: Meta, trace: seq<Step>, k: nat, st: ReplayState, e: NonFatalError)
    requires k < |trace| && WellFormed(meta, st) && st.lastStepTime == trace[k].time && OfStep(e)
    requires NodesKnownBy(trace[..k], st) && LinksKnownBy(trace[..k], st) && FlightsKnownBy(trace[..k], st)
    ensures DrawsInFailing(meta, st, trace[k].time, trace[k].kind, e) <==> IsLastFault(meta, trace, k, e)
  {
    if e.LinkBandwidthExceeded? {
      hide WellFormed, NodesKnownBy, LinksKnownBy, FlightsKnownBy, IsUsage, SendsAlong, Overloads;
    } else {
      hide WellFormed, NodesKnownBy, LinksKnownBy, FlightsKnownBy, Draws, IsFault;
      if !(trace[k].kind.PacketInTransit? && OnAccountOfLink(e)) {
        FaultIsDrawn(meta, trace, k, st, e);
      }
    }
  }

  /** The first step that cannot be replayed, and the state that it finds. */
  lemma FailureAt(meta: Meta, order: seq<NodeId>, trace: seq<Step>) returns (k: nat, st: ReplayState)
    requires ValidOrder(meta, order) && TimeSorted(trace) && ReplayTrace(meta, order, trace).Failed?
    ensures k < |trace| && ReplayTrace(meta, order, trace[..k]).Running?
    ensures ReplayTrace(meta, order, trace[..k]).st.lastStepTime <= trace[k].time
    ensures st == AdvanceTo(meta, order, ReplayTrace(meta, order, trace[..k]).st, trace[k].time)
    ensures WellFormed(meta, st) && st.lastStepTime == trace[k].time
    ensures ReplayTrace(meta, order, trace) == ApplyStep(meta, st, trace[k].time, trace[k].kind)
  {
    hide AdvanceTo, ApplyStep, WellFormed, ValidOrder;
    var init := trace[..|trace| - 1];
    if ReplayTrace(meta, order, init).Running? {
      k := |trace| - 1;
      st := AdvanceTo(meta, order, ReplayTrace(meta, order, init).st, trace[k].time);
    } else {
      k, st := FailureAt(meta, order, init);
      assert init[..k] == trace[..k];
    }
  }

  /**
   * On every trace that cannot be replayed to its end: the fatal error is that of the first step
   * that cannot be replayed, and beside it are reported the faults of the steps before and of that
   * step itself, except what would be held against a failing send on account of its link; and the
   * buffer errors of the instants that ended before that step.
   */
  lemma FailuresAreJudged(meta: Meta, order: seq<NodeId>, trace: seq<Step>) returns (k: nat)
    requires ValidOrder(meta, order) && TimeSorted(trace) && Verdict(meta, order, trace).Failed?
    ensures var report := Verifier.ReportOf(Verdict(meta, order, trace));
      && report.Invalid? && k < |trace| && FirstFatal(meta, trace, k, report.fatal)
      && (forall e :: OfStep(e) ==>
            (e in report.errors <==>
              (exists j :: 0 <= j < k && IsFault(meta, trace, j, e)) || IsLastFault(meta, trace, k, e)))
      && (forall e: NonFatalError :: e.NodeExceedsBufferSize? ==>
            (e in report.errors <==> exists i, p :: IsBufferFault(meta, order, trace, EndsUntil(trace, k), e, i, p)))
  {
    hide ReplayTrace, ValidOrder, WellFormed, AdvanceTo, ApplyStep, IsFault, IsLastFault, IsBufferFault, EndsUntil,
      CheckUsage, FirstFatal, OfStep, Finish, Verifier.StatsOfLinks, Verifier.StatsOfNode;
    var st: ReplayState;
    k, st := FailureAt(meta, order, trace);
    FirstFatalIs(meta, order, trace, k);
    var errors := Verdict(meta, order, trace).errors;
    forall e | OfStep(e)
      ensures e in errors <==> (exists j :: 0 <= j < k && IsFault(meta, trace, j, e)) || IsLastFault(meta, trace, k, e)
    {
      FailureFaults(meta, order, trace, k, st, e);
    }
    forall e: NonFatalError | e.NodeExceedsBufferSize?
      ensures e in errors <==> exists i, p :: IsBufferFault(meta, order, trace, EndsUntil(trace, k), e, i, p)
    {
      FailureBufferFaults(meta, order, trace, k, st, e);
    }
  }

  lemma FirstFatalIs(meta: Meta, order: seq<NodeId>, trace: seq<Step>, k: nat)
    requires ValidOrder(meta, order) && TimeSorted(trace) && ReplayTrace(meta, order, trace).Failed?
    requires k < |trace| && ReplayTrace(meta, order, trace[..k]).Running?
    requires var st := AdvanceTo(meta, order, ReplayTrace(meta, order, trace[..k]).st, trace[k].time);
      ReplayTrace(meta, order, trace) == ApplyStep(meta, st, trace[k].time, trace[k].kind)
    ensures FirstFatal(meta, trace, k, ReplayTrace(meta, order, trace).fatal)
  {
    hide ReplayTrace, ValidOrder, WellFormed, AdvanceTo, ApplyStep, FatalOf, NodesKnownBy, LinksKnownBy, FlightsKnownBy;
    var st := AdvanceTo(meta, order, ReplayTrace(meta, order, trace[..k]).st, trace[k].time);
    FatalErrorsAreJudged(meta, order, trace[..k]);
    assert forall j :: 0 <= j < k ==> trace[..k][..j] == trace[..j];
    NodesAreKnown(meta, order, trace[..k], trace[k].time);
    LinksAreKnown(meta, order, trace[..k], trace[k].time);
    FatalIs(meta, trace[..k], st, trace[k].time, trace[k].kind);
  }

  lemma FailureFaults(meta: Meta, order: seq<NodeId>, trace: seq<Step>, k: nat, st: ReplayState, e: NonFatalError)
    requires ValidOrder(meta, order) && TimeSorted(trace) && ReplayTrace(meta, order, trace).Failed? && OfStep(e)
    requires k < |trace| && ReplayTrace(meta, order, trace[..k]).Running?
    requires ReplayTrace(meta, order, trace[..k]).st.lastStepTime <= trace[k].time
    requires st == AdvanceTo(meta, order, ReplayTrace(meta, order, trace[..k]).st, trace[k].time)
    requires ReplayTrace(meta, order, trace) == ApplyStep(meta, st, trace[k].time, trace[k].kind)
    ensures e in ReplayTrace(meta, order, trace).errors <==>
      (exists j :: 0 <= j < k && IsFault(meta, trace, j, e)) || IsLastFault(meta, trace, k, e)
  {
    hide ReplayTrace, ValidOrder, WellFormed, AdvanceTo, ApplyStep, IsFault, IsLastFault, DrawsInFailing, DrawnAt,
      NodesKnownBy, LinksKnownBy, FlightsKnownBy;
    ErrorsAreDrawn(meta, order, trace[..k], e);
    DrawnInside(meta, order, trace[..k], e);
    forall j | 0 <= j < k
      ensures DrawnAt(meta, order, trace[..k], j, e) <==> IsFault(meta, trace, j, e)
    {
      DrawnIsFault(meta, order, trace[..k], j, e);
      FaultOfPart(meta, trace, k, j, e);
    }
    AdvanceTracksOnlyBuffers(meta, order, ReplayTrace(meta, order, trace[..k]).st, trace[k].time, e);
    FailureTracks(meta, st, trace[k].time, trace[k].kind, e);
    NodesAreKnown(meta, order, trace[..k], trace[k].time);
    LinksAreKnown(meta, order, trace[..k], trace[k].time);
    LastFaultIsDrawn(meta, trace, k, st, e);
  }

  lemma FailureBufferFaults(meta: Meta, order: seq<NodeId>, trace: seq<Step>, k: nat, st: ReplayState, e: NonFatalError)
    requires ValidOrder(meta, order) && TimeSorted(trace) && ReplayTrace(meta, order, trace).Failed?
    requires k < |trace| && ReplayTrace(meta, order, trace[..k]).Running? && e.NodeExceedsBufferSize?
    requires ReplayTrace(meta, order, trace[..k]).st.lastStepTime <= trace[k].time
    requires st == AdvanceTo(meta, order, ReplayTrace(meta, order, trace[..k]).st, trace[k].time)
    requires ReplayTrace(meta, order, trace) == ApplyStep(meta, st, trace[k].time, trace[k].kind)
    ensures e in ReplayTrace(meta, order, trace).errors <==>
      exists i, p :: IsBufferFault(meta, order, trace, EndsUntil(trace, k), e, i, p)
  {
    hide ReplayTrace, ValidOrder, WellFormed, AdvanceTo, ApplyStep, Draws, IsBufferFault, EndsBefore, MaximaKnown;
    InstantsKnown(meta, order, trace, k);
    AdvanceKeepsKnown(meta, order, trace, k);
    assert FaultsKnown(meta, order, trace, EndsUntil(trace, k), st.errors);
    FailureTracks(meta, st, trace[k].time, trace[k].kind, e);
    NotByStep(meta, st, trace[k].time, trace[k].kind, e);
  }
}
