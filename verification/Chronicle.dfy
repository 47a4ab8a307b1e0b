/** The errors that the verifier reports, in order: step after step, and check after check of each step. */
module Chronicle {
  import opened Types
  import opened NodeReplay
  import opened BandwidthWindow
  import opened Replay
  import opened BufferCheck
  import opened BufferOrder
  import opened ReplayTotals
  import opened ErrorCauses
  import opened TraceJudgement

  /** The place of the check that draws such an error among the checks of one step. */
  function Place(e: NonFatalError): nat {
    match e
    case DisconnectedPacketReceive(_, _) => 0
    case TooFastPacketReceive(_, _) => 1
    case OfflinePacketReceive(_, _, _, _) => 2
    case PacketCreatedByRouterNode(_, _) => 3
    case NodeDownPacketReceive(_, _) => 4
    case NodeUpPacketDroppedOnArrival(_, _) => 5
    case NodeDownPacketSend(_, _) => 6
    case PacketSurvivedBufferCorruption(_, _) => 7
    case DisconnectedPacketSend(_, _) => 8
    case OfflinePacketSend(_, _) => 9
    case LinkBandwidthExceeded(_, _, _, _, _) => 10
    case MissingLostPacket(_) => 11
    case NodeExceedsBufferSize(_, _, _) => 12
  }

  /** Each once, in the order of the checks. */
  predicate ByPlace(errors: seq<NonFatalError>) {
    forall i, j :: 0 <= i < j < |errors| ==> Place(errors[i]) < Place(errors[j])
  }

  function Unburdened(st: ReplayState): ReplayState {
    st.(errors := [])
  }

  /** A step says what it has to say whatever was tracked before, after all of that, and in the order of its checks. */
  ghost predicate Appends(meta: Meta, st: ReplayState, o: Outcome, alone: Outcome) {
    o.Running? ==>
      alone.Running? && o.st.errors == st.errors + alone.st.errors && ByPlace(alone.st.errors)
  }

  lemma NodeAppends(st: ReplayState, n: NodeId, r: NodeResult)
    requires r.NodeOk? ==> ByPlace(r.errors)
    ensures WithNode(st, n, r).Running? ==>
      WithNode(Unburdened(st), n, r).Running?
      && WithNode(st, n, r).st.errors == st.errors + WithNode(Unburdened(st), n, r).st.errors
      && ByPlace(WithNode(Unburdened(st), n, r).st.errors)
  {
  }

  lemma CallOnce(view: NodeView, t: Time, k: StepKind)
    requires IsNodeStep(k) && Tallied(view)
    ensures var r := NodeStep(view, t, k); r.NodeOk? ==> ByPlace(r.errors)
  {
    hide SumSizes;
  }

  lemma OnceAfter(a: seq<NonFatalError>, b: seq<NonFatalError>)
    requires ByPlace(a) && ByPlace(b) && forall x, y :: x in a && y in b ==> Place(x) < Place(y)
    ensures ByPlace(a + b)
  {
    forall i, j | 0 <= i < j < |a + b|
      ensures Place((a + b)[i]) < Place((a + b)[j])
    {
      if i < |a| && |a| <= j {
        assert a[i] in a && b[j - |a|] in b;
      }
    }
  }

  lemma Regroup(a: seq<NonFatalError>, b: seq<NonFatalError>, c: seq<NonFatalError>)
    ensures a + b + c == a + ([] + b + c) && a + [] == a
  {
  }

  /** What is held against a packet off a link, and what its node says of it. */
  lemma ArrivalOnce(meta: Meta, st: ReplayState, f: InFlight, n: NodeId, t: Time)
    requires WellFormed(meta, st) && WellFormed(meta, Unburdened(st)) && f.link in meta.links && f.sentAt <= t
    ensures ArrivalErrors(meta, Unburdened(st), f, n, t) == ArrivalErrors(meta, st, f, n, t)
    ensures ByPlace(ArrivalErrors(meta, st, f, n, t))
    ensures forall e :: e in ArrivalErrors(meta, st, f, n, t) ==> Place(e) <= 2
  {
    hide SumSizes, SumBits, Tallied;
  }

  lemma AddingOnce(view: NodeView, k: StepKind, t: Time)
    requires k.PacketInNode?
    ensures var errors := Received(view, k.node, k.packet, k.number, k.size, k.droppedOnArrival, t).errors;
      ByPlace(errors) && forall e :: e in errors ==> Place(e) in {4, 5}
    ensures var errors := Created(view, k.node, k.packet, k.size, t).errors;
      ByPlace(errors) && forall e :: e in errors ==> Place(e) == 4
  {
  }

  lemma LandingAppends(meta: Meta, st: ReplayState, t: Time, k: StepKind)
    requires WellFormed(meta, st) && WellFormed(meta, Unburdened(st)) && st.lastStepTime == t
    requires k.PacketInNode? && k.packet in st.inFlight
    ensures Appends(meta, st, StepInNode(meta, st, t, k), StepInNode(meta, Unburdened(st), t, k))
  {
    var f := st.inFlight[k.packet];
    if k.node in st.nodes {
      ArrivalOnce(meta, st, f, k.node, t);
      AddingOnce(st.nodes[k.node], k, t);
      hide ArrivalErrors, Received, ByPlace, WellFormed;
      var first := ArrivalErrors(meta, st, f, k.node, t);
      var second := Received(st.nodes[k.node], k.node, k.packet, k.number, k.size, k.droppedOnArrival, t).errors;
      OnceAfter(first, second);
      Regroup(st.errors, first, second);
      assert [] + first + second == first + second;
    }
  }

  lemma CreationAppends(meta: Meta, st: ReplayState, t: Time, k: StepKind)
    requires WellFormed(meta, st) && WellFormed(meta, Unburdened(st)) && st.lastStepTime == t
    requires k.PacketInNode? && k.packet !in st.inFlight
    ensures Appends(meta, st, StepInNode(meta, st, t, k), StepInNode(meta, Unburdened(st), t, k))
  {
    if k.node in st.nodes {
      AddingOnce(st.nodes[k.node], k, t);
      hide ArrivalErrors, Created, Received, WellFormed;
      var first := if k.node in meta.hosts then [] else [PacketCreatedByRouterNode(k.node, k.packet)];
      assert ByPlace(first);
      hide ByPlace;
      var second := Created(st.nodes[k.node], k.node, k.packet, k.size, t).errors;
      OnceAfter(first, second);
      Regroup(st.errors, first, second);
      assert [] + first + second == first + second;
    }
  }

  lemma LettingGoOnce(view: NodeView, n: NodeId, id: PacketId)
    requires Tallied(view)
    ensures ByPlace(Sent(view, n, id).errors)
    ensures forall e :: e in Sent(view, n, id).errors ==> Place(e) in {6, 7}
  {
    hide SumSizes;
  }

  /** What is held against a send on account of the link. */
  function OfLink(meta: Meta, links: map<LinkId, LinkView>, t: Time, k: StepKind, size: nat): seq<NonFatalError>
    requires k.PacketInTransit? && k.link in meta.links && k.link in links
  {
    var m := meta.links[k.link];
    var used := UsedBps(PacketSent(links[k.link], t, size, m.bandwidthBps), m.bandwidthBps);
    (if k.node != m.source then [DisconnectedPacketSend(k.node, k.link)] else [])
    + (if !links[k.link].up then [OfflinePacketSend(k.node, k.link)] else [])
    + if m.bandwidthBps < used
      then [LinkBandwidthExceeded(k.node, k.link, k.packet, m.bandwidthBps, used)] else []
  }

  lemma OfLinkOnce(meta: Meta, links: map<LinkId, LinkView>, t: Time, k: StepKind, size: nat)
    requires k.PacketInTransit? && k.link in meta.links && k.link in links
    ensures var errors := OfLink(meta, links, t, k, size);
      && ByPlace(errors)
      && forall e :: e in errors ==> 8 <= Place(e)
  {
    hide PacketSent, UsedBps;
  }

  lemma LinkAppends(meta: Meta, st: ReplayState, t: Time, k: StepKind, p: HeldPacket)
    requires WellFormed(meta, st) && k.PacketInTransit? && k.link in meta.links
    ensures k.link in st.links
    ensures SendOnLink(meta, st, t, k, p).errors == st.errors + OfLink(meta, st.links, t, k, p.size)
  {
    hide PacketSent, UsedBps, SumSizes, SumBits, Tallied;
  }

  lemma SendAppends(meta: Meta, st: ReplayState, t: Time, k: StepKind)
    requires WellFormed(meta, st) && WellFormed(meta, Unburdened(st)) && st.lastStepTime == t && k.PacketInTransit?
    requires StepInTransit(meta, st, t, k).Running?
    ensures Appends(meta, st, StepInTransit(meta, st, t, k), StepInTransit(meta, Unburdened(st), t, k))
  {
    SendIs(meta, st, t, k);
    SameSend(meta, st, t, k);
    SendIs(meta, Unburdened(st), t, k);
    hide WellFormed, StepInTransit, Sent, SendOnLink, Tallied, OfLink, ByPlace;
    var r, p := Sent(st.nodes[k.node], k.node, k.packet), st.nodes[k.node].packets[k.packet];
    LettingGoOnce(st.nodes[k.node], k.node, k.packet);
    LinkAppends(meta, WithNode(st, k.node, r).st, t, k, p);
    LinkAppends(meta, WithNode(Unburdened(st), k.node, r).st, t, k, p);
    OfLinkOnce(meta, st.links, t, k, p.size);
    OnceAfter(r.errors, OfLink(meta, st.links, t, k, p.size));
    Regroup(st.errors, r.errors, OfLink(meta, st.links, t, k, p.size));
    assert [] + r.errors == r.errors;
  }

  lemma SameSend(meta: Meta, st: ReplayState, t: Time, k: StepKind)
    requires WellFormed(meta, st) && WellFormed(meta, Unburdened(st)) && st.lastStepTime == t && k.PacketInTransit?
    requires StepInTransit(meta, st, t, k).Running?
    ensures StepInTransit(meta, Unburdened(st), t, k).Running?
  {
    hide WellFormed, Tallied, SendOnLink;
    SendIs(meta, st, t, k);
    hide Sent;
  }

  lemma EventAppends(meta: Meta, st: ReplayState, t: Time, k: StepKind)
    requires k.NetworkEvent?
    ensures Appends(meta, st, StepEvent(st, t, k), StepEvent(Unburdened(st), t, k))
  {
    hide SetStatus, HandleEvent;
    assert st.errors + [] == st.errors;
  }

  lemma UnburdenedIsWellFormed(meta: Meta, st: ReplayState)
    requires WellFormed(meta, st)
    ensures WellFormed(meta, Unburdened(st))
  {
    hide SumSizes, SumBits, Tallied;
  }

  lemma StepAppends(meta: Meta, st: ReplayState, t: Time, k: StepKind)
    requires WellFormed(meta, st) && st.lastStepTime == t
    ensures WellFormed(meta, Unburdened(st))
    ensures Appends(meta, st, ApplyStep(meta, st, t, k), ApplyStep(meta, Unburdened(st), t, k))
  {
    UnburdenedIsWellFormed(meta, st);
    hide StepInNode, StepInTransit, StepEvent, NodeStep, SumSizes, SumBits;
    if k.PacketInNode? {
      if k.packet in st.inFlight {
        LandingAppends(meta, st, t, k);
      } else {
        CreationAppends(meta, st, t, k);
      }
    } else if k.PacketInTransit? {
      if StepInTransit(meta, st, t, k).Running? {
        SendAppends(meta, st, t, k);
      }
    } else if k.NetworkEvent? {
      EventAppends(meta, st, t, k);
    } else if IsNodeStep(k) && k.node in st.nodes {
      CallOnce(st.nodes[k.node], t, k);
      NodeAppends(st, k.node, NodeStep(st.nodes[k.node], t, k));
    }
  }

  lemma DrawsRegardless(meta: Meta, st: ReplayState, t: Time, k: StepKind, e: NonFatalError)
    ensures Draws(meta, Unburdened(st), t, k, e) <==> Draws(meta, st, t, k, e)
  {
    hide PacketSent, UsedBps;
  }

  // ----- Whole traces -----

  /** From `before` to `after` the list grew by at most one buffer error, and then by the faults of step `k`, check by check. */
  ghost predicate GrewByFaults(meta: Meta, trace: seq<Step>, k: nat, before: seq<NonFatalError>, after: seq<NonFatalError>,
                               check: Option<NonFatalError>, faults: seq<NonFatalError>)
    requires k < |trace|
  {
    && after == before + (if check.Some? then [check.value] else []) + faults
    && (check.Some? ==> check.value.NodeExceedsBufferSize?)
    && ByPlace(faults) && forall e :: e in faults <==> OfStep(e) && IsFault(meta, trace, k, e)
  }

  ghost function ErrorsAfter(meta: Meta, order: seq<NodeId>, trace: seq<Step>, k: nat): seq<NonFatalError>
    requires ValidOrder(meta, order) && TimeSorted(trace) && k <= |trace|
  {
    var o := ReplayTrace(meta, order, trace[..k]);
    if o.Running? then o.st.errors else o.errors
  }

  lemma CheckAppends(meta: Meta, order: seq<NodeId>, st: ReplayState) returns (check: Option<NonFatalError>)
    requires ValidOrder(meta, order) && st.nodes.Keys == meta.bufferSizes.Keys
    ensures CheckUsage(meta, order, st).errors == st.errors + if check.Some? then [check.value] else []
    ensures check.Some? ==> check.value.NodeExceedsBufferSize?
  {
    OrderCovers(meta, order);
    check := UpdateMaxBufferUsage(meta, order, st.nodes).error;
    CheckBlames(meta, order, st.nodes);
    hide ValidOrder, UpdateMaxBufferUsage;
  }

  lemma AdvanceAppends(meta: Meta, order: seq<NodeId>, st: ReplayState, t: Time) returns (check: Option<NonFatalError>)
    requires ValidOrder(meta, order) && WellFormed(meta, st) && st.lastStepTime <= t
    ensures AdvanceTo(meta, order, st, t).errors == st.errors + if check.Some? then [check.value] else []
    ensures check.Some? ==> check.value.NodeExceedsBufferSize?
  {
    hide ValidOrder, WellFormed, CheckUsage;
    NodesKnown(meta, st);
    check := None;
    if t != st.lastStepTime {
      check := CheckAppends(meta, order, st);
    } else {
      assert st.errors + [] == st.errors;
    }
  }

  lemma FaultsOfStep(meta: Meta, order: seq<NodeId>, trace: seq<Step>, k: nat, st: ReplayState)
    returns (faults: seq<NonFatalError>)
    requires ValidOrder(meta, order) && TimeSorted(trace) && ReplayTrace(meta, order, trace).Running? && k < |trace|
    requires ReplayTrace(meta, order, trace[..k]).Running?
    requires ReplayTrace(meta, order, trace[..k]).st.lastStepTime <= trace[k].time
    requires st == AdvanceTo(meta, order, ReplayTrace(meta, order, trace[..k]).st, trace[k].time)
    requires ApplyStep(meta, st, trace[k].time, trace[k].kind).Running?
    ensures ApplyStep(meta, st, trace[k].time, trace[k].kind).st.errors == st.errors + faults
    ensures ByPlace(faults) && forall e :: e in faults <==> OfStep(e) && IsFault(meta, trace, k, e)
  {
    hide ValidOrder, ReplayTrace, WellFormed, AdvanceTo, ApplyStep, Draws, IsFault, ByPlace;
    var t, kind := trace[k].time, trace[k].kind;
    StepAppends(meta, st, t, kind);
    faults := ApplyStep(meta, Unburdened(st), t, kind).st.errors;
    forall e
      ensures e in faults <==> OfStep(e) && IsFault(meta, trace, k, e)
    {
      StepTracks(meta, Unburdened(st), t, kind, e);
      DrawsRegardless(meta, st, t, kind, e);
      if OfStep(e) {
        DrawnIsFault(meta, order, trace, k, e);
      } else {
        NotByStep(meta, st, t, kind, e);
      }
    }
  }

  /**
   * On every trace that can be replayed, the errors stand in the report in the order of the steps:
   * each step adds each of its faults once, in the order of the checks that it undergoes, after the
   * error, if any, of the buffer check at the end of the instant before it.
   */
  lemma ErrorsAreListed(meta: Meta, order: seq<NodeId>, trace: seq<Step>, k: nat)
    returns (check: Option<NonFatalError>, faults: seq<NonFatalError>)
    requires ValidOrder(meta, order) && TimeSorted(trace) && Verdict(meta, order, trace).Running? && k < |trace|
    ensures ErrorsAfter(meta, order, trace, 0) == []
    ensures GrewByFaults(meta, trace, k, ErrorsAfter(meta, order, trace, k), ErrorsAfter(meta, order, trace, k + 1),
                         check, faults)
  {
    VerdictRuns(meta, order, trace);
    hide ValidOrder, ReplayTrace, WellFormed, AdvanceTo, ApplyStep, IsFault, ByPlace, Verdict, ErrorsAfter, GrewByFaults,
      OfStep, DrawnAt;
    NothingYet(meta, order, trace);
    PrefixReplays(meta, order, trace, k + 1);
    PrefixStep(meta, order, trace, k);
    ErrorsAfterIs(meta, order, trace, k);
    ErrorsAfterIs(meta, order, trace, k + 1);
    var st0 := ReplayTrace(meta, order, trace[..k]).st;
    check := AdvanceAppends(meta, order, st0, trace[k].time);
    var st := AdvanceTo(meta, order, st0, trace[k].time);
    faults := FaultsOfStep(meta, order, trace, k, st);
    Grows(meta, trace, k, st0.errors, st.errors, ErrorsAfter(meta, order, trace, k + 1), check, faults);
  }

  lemma Grows(meta: Meta, trace: seq<Step>, k: nat, before: seq<NonFatalError>, checked: seq<NonFatalError>,
              after: seq<NonFatalError>, check: Option<NonFatalError>, faults: seq<NonFatalError>)
    requires k < |trace| && checked == before + if check.Some? then [check.value] else []
    requires (check.Some? ==> check.value.NodeExceedsBufferSize?) && after == checked + faults
    requires ByPlace(faults) && forall e :: e in faults <==> OfStep(e) && IsFault(meta, trace, k, e)
    ensures GrewByFaults(meta, trace, k, before, after, check, faults)
  {
    hide IsFault, OfStep, ByPlace;
  }

  lemma NothingYet(meta: Meta, order: seq<NodeId>, trace: seq<Step>)
    requires ValidOrder(meta, order) && TimeSorted(trace)
    ensures ErrorsAfter(meta, order, trace, 0) == []
  {
    hide ValidOrder;
    assert trace[..0] == [];
  }

  lemma ErrorsAfterIs(meta: Meta, order: seq<NodeId>, trace: seq<Step>, k: nat)
    requires ValidOrder(meta, order) && TimeSorted(trace) && k <= |trace| && ReplayTrace(meta, order, trace[..k]).Running?
    ensures ErrorsAfter(meta, order, trace, k) == ReplayTrace(meta, order, trace[..k]).st.errors
  {
    hide ValidOrder, ReplayTrace;
  }

  lemma VerdictRuns(meta: Meta, order: seq<NodeId>, trace: seq<Step>)
    requires ValidOrder(meta, order) && TimeSorted(trace) && Verdict(meta, order, trace).Running?
    ensures ReplayTrace(meta, order, trace).Running?
  {
    hide ValidOrder, ReplayTrace, WellFormed, CheckUsage;
  }

  /** What the last check adds. */
  lemma LastCheckIsListed(meta: Meta, order: seq<NodeId>, trace: seq<Step>) returns (check: Option<NonFatalError>)
    requires ValidOrder(meta, order) && TimeSorted(trace) && Verdict(meta, order, trace).Running?
    ensures Verdict(meta, order, trace).st.errors
         == ErrorsAfter(meta, order, trace, |trace|) + if check.Some? then [check.value] else []
    ensures check.Some? ==> check.value.NodeExceedsBufferSize?
  {
    VerdictRuns(meta, order, trace);
    hide ValidOrder, ReplayTrace, WellFormed, CheckUsage;
    VerdictChecks(meta, order, trace);
    NodesKnown(meta, ReplayTrace(meta, order, trace).st);
    assert trace[..|trace|] == trace;
    check := CheckAppends(meta, order, ReplayTrace(meta, order, trace).st);
  }
}
