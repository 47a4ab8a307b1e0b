/** Whole runs of the simulator: the verifier replays every trace, and what it can report. */
module AgreementRuns {
  import opened Types
  import opened Network
  import opened Status
  import opened Simulator
  import opened BandwidthWindow
  import opened NodeReplay
  import opened Replay
  import opened BufferCheck
  import opened Ledger
  import opened Agreement
  import opened AgreementSteps
  import opened AgreementMoves
  import Pacing

  // ----- The passage of time -----

  /** No packet is half-way through being placed. */
  predicate AtRest(log: seq<Record>) {
    forall i :: 0 <= i < |log| ==> !log[i].fate.Arriving?
  }

  lemma LaterLinks(c: Config, s: State, r: ReplayState, t: Time)
    requires LinksMirrored(c, s.links, r.links, s.trace, s.now) && s.now <= t
    requires FlightsKnown(c, s.log, s.links, r.links, s.trace, s.now)
    ensures LinksMirrored(c, s.links, r.links, s.trace, t)
    ensures FlightsKnown(c, s.log, s.links, r.links, s.trace, t)
  {
    hide Pacing.Paced, Pacing.PacerCovers, DownAt;
    forall l | l in s.links
      ensures l in r.links && l in c.links && LinkMirrored(c, l, s.links[l], r.links[l], s.trace, t)
    {
      assert LinkMirrored(c, l, s.links[l], r.links[l], s.trace, s.now);
    }
    forall i | 0 <= i < |s.log| && s.log[i].fate.InTransit?
      ensures FlightKnown(c, s.log[i].fate, s.links, r.links, s.trace, t)
    {
      assert FlightKnown(c, s.log[i].fate, s.links, r.links, s.trace, s.now);
    }
  }

  lemma LaterWellFormed(meta: Meta, r: ReplayState, t: Time, update: Option<Time>)
    requires WellFormed(meta, r) && r.lastStepTime <= t
    ensures WellFormed(meta, r.(lastStepTime := t, lastUsageUpdate := update))
  {
    hide Tallied, SumBits;
  }

  lemma LaterAgrees(c: Config, s: State, r: ReplayState, t: Time, update: Option<Time>)
    requires ValidConfig(c) && Agrees(c, s, r) && s.now <= t
    ensures Agrees(c, s.(now := t), r.(lastStepTime := t, lastUsageUpdate := update))
  {
    hide ValidConfig, WellFormed, Mirrored, StatusMirrored, LinksMirrored, FlightsKnown, Accounted, RoutersFit,
      IdsUsed, RecordsPlaced, ErrorsExcused, MetaOf;
    LaterLinks(c, s, r, t);
    LaterWellFormed(MetaOf(c), r, t, update);
  }

  /** At rest, a router holds no more than its buffer. */
  lemma RouterUsageFits(c: Config, s: State, n: NodeId)
    requires Accounted(c, s.nodes, s.log) && RecordsPlaced(c, s.log) && AtRest(s.log)
    requires n in s.nodes && n in c.nodes && c.nodes[n].kind.Router?
    ensures Bytes(s.log, n, Held) + Bytes(s.log, n, Wiped) == c.nodes[n].bufferSize - s.nodes[n].available
  {
    BytesSplit(s.log, n);
    NoBytes(s.log, n, Uncharged);
  }

  lemma CheckedNode(meta: Meta, order: seq<NodeId>, r: ReplayState, n: NodeId)
    requires ValidOrder(meta, order) && r.nodes.Keys == meta.bufferSizes.Keys && n in r.nodes
    ensures n in CheckUsage(meta, order, r).nodes
    ensures CheckUsage(meta, order, r).nodes[n] == r.nodes[n]
         || CheckUsage(meta, order, r).nodes[n] == UpdateMaxUsage(r.nodes[n])
  {
  }

  lemma CheckedErrors(c: Config, order: seq<NodeId>, s: State, r: ReplayState)
    requires ValidConfig(c) && Agrees(c, s, r) && AtRest(s.log) && ValidOrder(MetaOf(c), order)
    ensures ErrorsExcused(c, s.log, s.trace, CheckUsage(MetaOf(c), order, r).errors)
  {
    hide ValidConfig, Mirrored, StatusMirrored, LinksMirrored, FlightsKnown, IdsUsed, UpdateMaxBufferUsage,
      UsageMirrored, Accounted, RecordsPlaced, AtRest;
    CheckBlames(MetaOf(c), order, r.nodes);
    var check := UpdateMaxBufferUsage(MetaOf(c), order, r.nodes);
    if check.error.Some? {
      var n :| n in order && Blames(MetaOf(c), r.nodes, n, check.error.value);
      RouterMaximumFits(c, s, r, n);
    }
  }

  lemma RouterMaximumFits(c: Config, s: State, r: ReplayState, n: NodeId)
    requires ValidConfig(c) && Agrees(c, s, r) && AtRest(s.log) && n in r.nodes && n in c.nodes
    ensures c.nodes[n].kind.Router? ==> MaxAfter(r.nodes, n) <= c.nodes[n].bufferSize
  {
    hide ValidConfig, IdsUnique, HoldingsMirrored, FlightsMirrored, StatusMirrored, LinksMirrored, FlightsKnown,
      IdsUsed, ErrorsExcused, Accounted, RecordsPlaced, AtRest, WellFormed;
    if c.nodes[n].kind.Router? {
      RouterUsageFits(c, s, n);
    }
  }

  lemma CheckedNodes(c: Config, order: seq<NodeId>, s: State, r: ReplayState)
    requires ValidConfig(c) && Agrees(c, s, r) && AtRest(s.log) && ValidOrder(MetaOf(c), order)
    ensures var nodes1 := CheckUsage(MetaOf(c), order, r).nodes;
      StatusMirrored(s.nodes, nodes1) && RoutersFit(c, nodes1) && Mirrored(s.log, nodes1, r.inFlight)
  {
    hide ValidConfig, Mirrored, LinksMirrored, FlightsKnown, IdsUsed, CheckUsage, ErrorsExcused,
      Accounted, RecordsPlaced, AtRest, ValidOrder, Tallied, SumBits;
    var nodes1 := CheckUsage(MetaOf(c), order, r).nodes;
    CheckedKeys(MetaOf(c), order, r);
    forall n | n in r.nodes
      ensures nodes1[n] == r.nodes[n] || nodes1[n] == UpdateMaxUsage(r.nodes[n])
    {
      CheckedNode(MetaOf(c), order, r, n);
    }
    forall n | n in nodes1 && n in c.nodes && c.nodes[n].kind.Router?
      ensures nodes1[n].maxBufferUsage <= c.nodes[n].bufferSize
    {
      RouterMaximumFits(c, s, r, n);
    }
    MirrorSameHoldingsAll(s.log, r.nodes, r.inFlight, nodes1);
  }

  lemma CheckedKeys(meta: Meta, order: seq<NodeId>, r: ReplayState)
    requires ValidOrder(meta, order) && r.nodes.Keys == meta.bufferSizes.Keys
    ensures CheckUsage(meta, order, r).nodes.Keys == r.nodes.Keys
  {
  }

  lemma MirrorSameHoldingsAll(log: seq<Record>, nodes: map<NodeId, NodeView>, inFlight: map<PacketId, InFlight>,
                              nodes1: map<NodeId, NodeView>)
    requires Mirrored(log, nodes, inFlight) && nodes1.Keys == nodes.Keys
    requires forall n :: n in nodes ==>
      nodes1[n].packets == nodes[n].packets && nodes1[n].bufferUsage == nodes[n].bufferUsage
    ensures Mirrored(log, nodes1, inFlight)
  {
    forall n, id | n in nodes1 && id in nodes1[n].packets
      ensures exists i :: HeldAt(log, i, n, id)
    {
      assert id in nodes[n].packets;
    }
  }

  lemma CheckedWellFormed(meta: Meta, order: seq<NodeId>, r: ReplayState)
    requires ValidOrder(meta, order) && WellFormed(meta, r)
    ensures WellFormed(meta, CheckUsage(meta, order, r))
  {
    hide UpdateMaxBufferUsage, SumBits;
  }

  lemma CheckedAgrees(c: Config, order: seq<NodeId>, s: State, r: ReplayState)
    requires ValidConfig(c) && Agrees(c, s, r) && AtRest(s.log) && ValidOrder(MetaOf(c), order)
    ensures Agrees(c, s, CheckUsage(MetaOf(c), order, r))
  {
    hide ValidConfig, WellFormed, Mirrored, StatusMirrored, LinksMirrored, FlightsKnown, Accounted, RoutersFit,
      IdsUsed, RecordsPlaced, ErrorsExcused, MetaOf, AtRest, ValidOrder, UpdateMaxBufferUsage;
    WellFormedKeys(MetaOf(c), r);
    CheckedWellFormed(MetaOf(c), order, r);
    CheckedErrors(c, order, s, r);
    CheckedNodes(c, order, s, r);
  }

  lemma WellFormedKeys(meta: Meta, r: ReplayState)
    requires WellFormed(meta, r)
    ensures r.nodes.Keys == meta.bufferSizes.Keys
  {
  }

  // ----- Keeping track over the steps of a run -----

  /** The verifier's state at the simulator's present instant. */
  ghost function Present(c: Config, order: seq<NodeId>, s: State): ReplayState
    requires ValidConfig(c) && Replays(c, order, s)
  {
    AdvanceTo(MetaOf(c), order, ReplayTrace(MetaOf(c), order, s.trace).st, s.now)
  }

  ghost predicate Replays(c: Config, order: seq<NodeId>, s: State)
    requires ValidConfig(c)
  {
    && ValidOrder(MetaOf(c), order)
    && TimeSorted(s.trace) && LastTime(s.trace) <= s.now
    && ReplayTrace(MetaOf(c), order, s.trace).Running?
  }

  ghost predicate Tracked(c: Config, order: seq<NodeId>, s: State)
    requires ValidConfig(c)
  {
    Replays(c, order, s) && Agrees(c, s, Present(c, order, s))
  }

  lemma EmittedTracked(c: Config, order: seq<NodeId>, s: State, s1: State, k: StepKind)
    requires ValidConfig(c) && Replays(c, order, s)
    requires s1.now == s.now && s1.trace == s.trace + [Step(s.now, k)]
    requires StepAgrees(c, Present(c, order, s), k, s1)
    ensures Tracked(c, order, s1)
    ensures Present(c, order, s1) == ApplyStep(MetaOf(c), Present(c, order, s), s.now, k).st
  {
    hide ValidConfig, WellFormed, Agrees, ValidOrder, ApplyStep, CheckUsage, MetaOf;
    ReplaySnoc(MetaOf(c), order, s.trace, Step(s.now, k));
    ApplyStepPreserves(MetaOf(c), Present(c, order, s), s.now, k);
  }

  lemma SilentTracked(c: Config, order: seq<NodeId>, s: State, s1: State)
    requires ValidConfig(c) && Replays(c, order, s)
    requires s1.now == s.now && s1.trace == s.trace && Agrees(c, s1, Present(c, order, s))
    ensures Tracked(c, order, s1) && Present(c, order, s1) == Present(c, order, s)
  {
    hide ValidConfig, Agrees, ValidOrder, AdvanceTo, ReplayTrace;
  }

  lemma TickTracked(c: Config, order: seq<NodeId>, s: State, t: Time)
    requires ValidConfig(c) && Tracked(c, order, s) && AtRest(s.log) && s.now <= t
    ensures Tracked(c, order, s.(now := t))
  {
    hide ValidConfig, WellFormed, Agrees, ValidOrder, CheckUsage, MetaOf, AtRest, ReplayTrace;
    var st := ReplayTrace(MetaOf(c), order, s.trace).st;
    var r := Present(c, order, s);
    var r1 := AdvanceTo(MetaOf(c), order, st, t);
    if s.now < t {
      AgreesTime(c, s, r);
      if st.lastStepTime == s.now {
        CheckedAgrees(c, order, s, st);
        LaterAgrees(c, s, CheckUsage(MetaOf(c), order, st), t, Some(st.lastStepTime));
      } else {
        LaterAgrees(c, s, r, t, Some(st.lastStepTime));
        assert r1 == r.(lastStepTime := t, lastUsageUpdate := Some(st.lastStepTime));
      }
    }
  }

  lemma AgreesTime(c: Config, s: State, r: ReplayState)
    requires ValidConfig(c) && Agrees(c, s, r)
    ensures WellFormed(MetaOf(c), r) && r.lastStepTime == s.now
  {
  }
}
