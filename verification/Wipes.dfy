/** When packets are found wiped: which action finds it, and which packets these are as the trace alone tells. */
module Wipes {
  import opened Types
  import opened Network
  import opened Status
  import opened Simulator
  import opened NodeReplay
  import opened Replay
  import opened BufferCheck
  import opened Ledger
  import opened Agreement
  import opened AgreementRuns
  import opened TraceFlights
  import opened TraceHoldings
  import opened TraceFacts
  import opened LinkTasks
  import opened LinkMoves
  import opened LinkDecisions
  import opened Arrivals
  import opened Sanity
  import opened Runs
  import opened RunStates
  import Devices
  import Pacing
  import RunSends

  // ----- Which action -----

  /** The step from `s` to `s1` records that packet `id` in node `n` is dropped because the buffer was cleared. */
  ghost predicate RecordsWipe(s: State, s1: State, id: PacketId, n: NodeId) {
    exists k :: |s.trace| <= k < |s1.trace| && s1.trace[k].kind == PacketDropped(id, n, BufferCleared)
  }

  /** The offer is of this packet; no link has claimed it yet; and the node's buffer was cleared since it came. */
  predicate OfWiped(s: State, o: Offer, id: PacketId, n: NodeId) {
    && o.record < |s.log| && s.log[o.record].packet.id == id && s.log[o.record].node == n && n in s.nodes
    && s.log[o.record].fate.Buffered?
    && s.nodes[n].lastBufferClear.Some? && s.log[o.record].since < s.nodes[n].lastBufferClear.value
  }

  /** A task gets to look at the packet as it would to send it, except that after a yield the link may be down. */
  predicate FindsWiped(s: State, a: Action, id: PacketId, n: NodeId) {
    match a
    case StartLinkTask(l) =>
      && l in s.links && s.links[l].queue != []
      && IsFree(s.links[l], s.now) && HasTurn(l, s.links[l].queue[0]) && OfWiped(s, s.links[l].queue[0], id, n)
    case ResumeLinkTask(l) =>
      && l in s.links && !s.links[l].task.Idle?
      && var t := s.links[l].task;
         && HasTurn(l, t.offer) && OfWiped(s, t.offer, id, n)
         && (t.Yielded? || (s.links[l].status.status.Up? && (t.AwaitingNode? || s.nodes[n].status.status.Up?)))
    case _ => false
  }

  lemma StartFindsWiped(s: State, a: Action, o: Offer, rest: seq<Offer>, d: Decision, id: PacketId, n: NodeId)
    requires a.StartLinkTask? && Works(s, a, o, rest)
    requires o.record < |s.log| && s.log[o.record].node in s.nodes && DecidesStart(s, a.link, o, d)
    ensures FindsWiped(s, a, id, n) <==> d.Wipes? && s.log[o.record].packet.id == id && s.log[o.record].node == n
  {
    assert s.links[a.link].queue[0] == o;
  }

  lemma ResumeFindsWiped(s: State, a: Action, o: Offer, rest: seq<Offer>, d: Decision, id: PacketId, n: NodeId)
    requires a.ResumeLinkTask? && Works(s, a, o, rest)
    requires o.record < |s.log| && s.log[o.record].node in s.nodes && DecidesResume(s, a.link, o, d)
    ensures FindsWiped(s, a, id, n) <==> d.Wipes? && s.log[o.record].packet.id == id && s.log[o.record].node == n
  {
  }

  lemma DecisionRecords(c: Config, s: State, s1: State, l: LinkId, o: Offer, d: Decision, id: PacketId, n: NodeId)
    requires l in c.links && o.record < |s.log| && Done(c, s, s1, l, o, d)
    ensures RecordsWipe(s, s1, id, n) <==> d.Wipes? && s.log[o.record].packet.id == id && s.log[o.record].node == n
  {
    var r := s.log[o.record];
    if d.Wipes? {
      assert s1.trace[|s.trace|].kind == PacketDropped(r.packet.id, r.node, BufferCleared);
    }
  }

  lemma AddsNoWipes(s: State, s1: State, kinds: seq<StepKind>, id: PacketId, n: NodeId)
    requires Adds(s, s1, kinds) && NoWipes(kinds)
    ensures !RecordsWipe(s, s1, id, n)
  {
  }

  lemma FaredAdds(s: State, s1: State, n: NodeId, f: Fare)
    requires n in s.nodes && Fared(s, s1, n, f)
    ensures Adds(s, s1, f.kinds)
  {
  }

  lemma OthersWipeNone(c: Config, s: State, a: Action, id: PacketId, n: NodeId)
    requires ValidConfig(c) && Sane(c, s) && TasksWait(c, s) && Enabled(c, s, a) && !OfLinkTask(a)
    ensures !RecordsWipe(s, Perform(c, s, a), id, n)
  {
    hide ValidConfig, Sane, TasksWait, Enabled, Perform, RecordsWipe, Fared, Fares, NoWipes, Adds, QuietKinds;
    var s1 := Perform(c, s, a);
    if a.Create? {
      var f := CreationsFare(c, s, a);
      FaresWipeNone(c.nodes[a.node], s.nodes[a.node], a.node, NewPacket(s, a), a.roll, f);
      FaredAdds(s, s1, a.node, f);
      AddsNoWipes(s, s1, f.kinds, id, n);
    } else if a.RunForwarder? {
      var f := ArrivalsFare(c, s, a);
      var r, m := s.log[a.record], TargetNode(c, a.link);
      if After(s.links[a.link].lastDown, r.fate.sent) {
        LossWipesNone(s, s1, r.packet.id, a.link, id, n);
      } else {
        FaresWipeNone(c.nodes[m], s.nodes[m], m, r.packet, a.roll, f);
        FaredAdds(s, s1, m, f);
        AddsNoWipes(s, s1, f.kinds, id, n);
      }
    } else {
      var kinds := QuietAdds(c, s, a);
      QuietWipesNone(c, s, a);
      AddsNoWipes(s, s1, kinds, id, n);
    }
  }

  lemma LossWipesNone(s: State, s1: State, lost: PacketId, l: LinkId, id: PacketId, n: NodeId)
    requires s1.trace == s.trace + [Step(s.now, PacketLostInTransit(lost, l))]
    ensures !RecordsWipe(s, s1, id, n)
  {
  }

  lemma QuietWipesNone(c: Config, s: State, a: Action)
    requires ValidConfig(c) && Sane(c, s) && Enabled(c, s, a)
    ensures NoWipes(QuietKinds(c, s, a))
  {
    hide ValidConfig, Sane;
  }

  /**
   * Which action finds a packet wiped, in any state whose tasks wait as they should: exactly one of a
   * link's task that has its turn and gets to look at the packet, if the packet is still unclaimed
   * and came into the node strictly before the node's buffer was last cleared. Nothing else does.
   */
  lemma WipesExactly(c: Config, s: State, a: Action, id: PacketId, n: NodeId)
    requires ValidConfig(c) && Sane(c, s) && TasksWait(c, s) && Enabled(c, s, a)
    ensures RecordsWipe(s, Perform(c, s, a), id, n) <==> FindsWiped(s, a, id, n)
  {
    hide ValidConfig, Sane, TasksWait, Enabled, Perform, RecordsWipe, FindsWiped, DecidesStart, DecidesResume, Done,
      SpaceAfter, Works;
    if OfLinkTask(a) {
      var o, rest, d := TasksDecide(c, s, a);
      DecisionRecords(c, s, Perform(c, s, a), a.link, o, d, id, n);
      if a.StartLinkTask? {
        StartFindsWiped(s, a, o, rest, d, id, n);
      } else {
        ResumeFindsWiped(s, a, o, rest, d, id, n);
      }
    } else {
      OthersWipeNone(c, s, a, id, n);
      assert !FindsWiped(s, a, id, n) by { OnlyTasksFind(s, a, id, n); }
    }
  }

  lemma OnlyTasksFind(s: State, a: Action, id: PacketId, n: NodeId)
    requires !OfLinkTask(a)
    ensures !FindsWiped(s, a, id, n)
  {
  }

  // ----- Which packets, on the trace alone -----

  /** Step `j` put the packet into the node, and up to step `k` no other put it in or took it out. */
  predicate StaysFrom(trace: seq<Step>, j: nat, k: nat, n: NodeId, id: PacketId) {
    && j < k <= |trace| && PutsIn(Flights(trace[..j]).Keys, trace[j].kind, n, id)
    && forall i :: j < i < k ==> !PutsIn(Flights(trace[..i]).Keys, trace[i].kind, n, id) && !TakesOut(trace[i].kind, n, id)
  }

  lemma StayLonger(trace: seq<Step>, step: Step, j: nat, n: NodeId, id: PacketId)
    requires StaysFrom(trace, j, |trace|, n, id)
    requires !PutsIn(Flights(trace).Keys, step.kind, n, id) && !TakesOut(step.kind, n, id)
    ensures StaysFrom(trace + [step], j, |trace| + 1, n, id)
  {
    hide Flights;
    assert forall i :: 0 <= i <= |trace| ==> (trace + [step])[..i] == trace[..i];
    assert trace[..|trace|] == trace;
  }

  /** A packet that is held has stayed since the time that is noted of it. */
  lemma {:induction false} HeldSince(trace: seq<Step>, n: NodeId, id: PacketId) returns (j: nat)
    requires id in HeldIn(trace, n)
    ensures StaysFrom(trace, j, |trace|, n, id) && trace[j].time == HeldIn(trace, n)[id].arrivedAt
  {
    var k := |trace| - 1;
    var init, step := trace[..k], trace[k];
    assert trace == init + [step];
    if PutsIn(Flights(init).Keys, step.kind, n, id) {
      j := k;
    } else {
      j := HeldSince(init, n, id);
      StayLonger(init, step, j, n, id);
    }
  }

  /** The buffer's last clear is later than `t` exactly if some clear is. */
  lemma {:induction false} ClearIsLast(trace: seq<Step>, n: NodeId, t: Time)
    requires TimeSorted(trace)
    ensures LastClear(trace, n).Some? && t < LastClear(trace, n).value <==>
      exists m :: 0 <= m < |trace| && ClearsBuffer(trace[m].kind, n) && t < trace[m].time
  {
    hide ClearsBuffer;
    if trace != [] {
      var init := trace[..|trace| - 1];
      ClearIsLast(init, n, t);
      assert forall m :: 0 <= m < |init| ==> init[m] == trace[m];
    }
  }

  /** Step `k` is a wipe exactly if the node's buffer was cleared at a time later than that of step `j`. */
  ghost predicate WipedIffCleared(trace: seq<Step>, j: nat, k: nat, n: NodeId)
    requires j < k < |trace|
  {
    trace[k].kind.PacketDropped? <==>
      exists m :: j < m < k && ClearsBuffer(trace[m].kind, n) && trace[j].time < trace[m].time
  }

  lemma KnownInState(c: Config, order: seq<NodeId>, s: State, i: nat)
    requires ValidConfig(c) && Tracked(c, order, s) && i < |s.log| && s.log[i].fate.Buffered? && s.log[i].node in s.nodes
    ensures TimeSorted(s.trace)
    ensures var r := s.log[i];
      && r.packet.id in HeldIn(s.trace, r.node) && HeldIn(s.trace, r.node)[r.packet.id].arrivedAt == r.since
      && LastClear(s.trace, r.node) == s.nodes[r.node].lastBufferClear
  {
    hide ValidConfig, WellFormed, HeldIn, LastClear, ReplayTrace, LinksMirrored, FlightsKnown, Accounted, IdsUsed,
      RecordsPlaced, ErrorsExcused, RoutersFit, IdsUnique, FlightsMirrored, UsageMirrored, AdvanceTo, ValidOrder;
    var r := s.log[i];
    var st := ReplayTrace(MetaOf(c), order, s.trace).st;
    HeldWhenSent(MetaOf(c), order, s.trace, Present(c, order, s), s.now, r.node);
    TimesFollowTrace(MetaOf(c), order, s.trace, r.node);
    AdvanceKeepsTimes(MetaOf(c), order, st, s.now, r.node);
  }

  lemma ClaimIsJudged(trace: seq<Step>, k: nat, n: NodeId, id: PacketId) returns (j: nat)
    requires k < |trace| && TimeSorted(trace) && id in HeldIn(trace[..k], n)
    requires trace[k].kind.PacketDropped? <==>
      LastClear(trace[..k], n).Some? && HeldIn(trace[..k], n)[id].arrivedAt < LastClear(trace[..k], n).value
    ensures j < k && StaysFrom(trace, j, k, n, id) && WipedIffCleared(trace, j, k, n)
  {
    hide HeldIn, LastClear, ClearsBuffer, PutsIn, TakesOut, Flights;
    var before := trace[..k];
    j := HeldSince(before, n, id);
    ClearIsLast(before, n, trace[j].time);
    assert forall i :: 0 <= i < k ==> before[i] == trace[i] && before[..i] == trace[..i];
  }

  lemma StillJudged(trace: seq<Step>, more: seq<Step>, j: nat, k: nat, n: NodeId, id: PacketId)
    requires j < k < |trace| && StaysFrom(trace, j, k, n, id) && WipedIffCleared(trace, j, k, n)
    ensures StaysFrom(trace + more, j, k, n, id) && WipedIffCleared(trace + more, j, k, n)
  {
    hide Flights, ClearsBuffer, PutsIn, TakesOut;
    assert forall i :: 0 <= i < |trace| ==> (trace + more)[i] == trace[i] && (trace + more)[..i] == trace[..i];
  }

  // ----- Runs -----

  /** Sent, or found wiped: what becomes of a packet that a link's task claims. */
  predicate IsClaim(k: StepKind) {
    k.PacketInTransit? || (k.PacketDropped? && k.reason.BufferCleared?)
  }

  /** A send or a wipe is the only step of its action, and about a packet that waits in its node. */
  lemma ClaimedByTask(c: Config, s: State, a: Action, k: nat) returns (i: nat)
    requires ValidConfig(c) && Sane(c, s) && TasksWait(c, s) && Enabled(c, s, a)
    requires |s.trace| <= k < |Perform(c, s, a).trace|
    requires IsClaim(Perform(c, s, a).trace[k].kind)
    ensures k == |s.trace| && s.trace <= Perform(c, s, a).trace
    ensures var kind := Perform(c, s, a).trace[k].kind;
      && i < |s.log| && s.log[i].fate.Buffered? && s.log[i].node == kind.node && kind.node in s.nodes
      && s.log[i].packet.id == kind.packet
      && (kind.PacketDropped? <==>
            s.nodes[kind.node].lastBufferClear.Some? && s.log[i].since < s.nodes[kind.node].lastBufferClear.value)
  {
    hide ValidConfig, Sane, TasksWait, Enabled, Perform, Works, SpaceAfter, Done, DecidesStart, DecidesResume;
    var s1 := Perform(c, s, a);
    if !OfLinkTask(a) {
      NotByOthers(c, s, a, k);
      assert false;
    } else {
      var o, rest, d := TasksDecide(c, s, a);
      i := o.record;
      DecisionAdds(c, s, s1, a.link, o, d);
      DecisionClaims(s, a, o, d);
    }
  }

  lemma NotByOthers(c: Config, s: State, a: Action, k: nat)
    requires ValidConfig(c) && Sane(c, s) && TasksWait(c, s) && Enabled(c, s, a) && !OfLinkTask(a)
    requires |s.trace| <= k < |Perform(c, s, a).trace|
    ensures !IsClaim(Perform(c, s, a).trace[k].kind)
  {
    hide ValidConfig, Sane, TasksWait, Enabled, Perform, WillSend, FirstRecord;
    var kind := Perform(c, s, a).trace[k].kind;
    if kind.PacketInTransit? {
      assert RecordsSend(s, Perform(c, s, a), kind.packet, kind.node, kind.link);
      SendsExactly(c, s, a, kind.packet, kind.node, kind.link);
    } else if kind.PacketDropped? {
      OthersWipeNone(c, s, a, kind.packet, kind.node);
    }
  }

  lemma DecisionClaims(s: State, a: Action, o: Offer, d: Decision)
    requires OfLinkTask(a) && a.link in s.links && o.record < |s.log| && s.log[o.record].node in s.nodes
    requires Decides(s, a, o, d) && (d.Wipes? || d.SendsIt?)
    ensures var r := s.log[o.record];
      var clear := s.nodes[r.node].lastBufferClear;
      r.fate.Buffered? && (d.Wipes? <==> clear.Some? && r.since < clear.value)
  {
  }

  lemma DecisionAdds(c: Config, s: State, s1: State, l: LinkId, o: Offer, d: Decision)
    requires l in c.links && o.record < |s.log| && Done(c, s, s1, l, o, d)
    ensures var r := s.log[o.record];
      s1.trace == s.trace
        + (if d.Wipes? then [Step(s.now, PacketDropped(r.packet.id, r.node, BufferCleared))]
           else if d.SendsIt? then [Step(s.now, PacketInTransit(r.packet.id, r.node, l))] else [])
  {
  }

  lemma NewClaimJudged(c: Config, order: seq<NodeId>, s: State, a: Action, k: nat) returns (j: nat)
    requires ValidConfig(c) && Good(c, order, s) && Sane(c, s) && Enabled(c, s, a)
    requires |s.trace| <= k < |Perform(c, s, a).trace| && IsClaim(Perform(c, s, a).trace[k].kind)
    requires TimeSorted(Perform(c, s, a).trace)
    ensures var trace := Perform(c, s, a).trace;
      j < k && StaysFrom(trace, j, k, trace[k].kind.node, trace[k].kind.packet)
      && WipedIffCleared(trace, j, k, trace[k].kind.node)
  {
    hide ValidConfig, Good, Sane, TasksWait, Enabled, Perform, Tracked, AtRest, HeldIn, LastClear, StaysFrom,
      WipedIffCleared;
    GoodIsSane(c, order, s);
    var i := ClaimedByTask(c, s, a, k);
    KnownInState(c, order, s, i);
    var trace := Perform(c, s, a).trace;
    assert trace[..k] == s.trace;
    j := ClaimIsJudged(trace, k, trace[k].kind.node, trace[k].kind.packet);
  }

  /**
   * Which packets are wiped, in every run: of each packet that a link's task claims, the trace tells
   * which step put it into its node for the stay that ends so, and the packet is wiped, not sent,
   * exactly if some event strictly later than that step cleared the node's buffer. So no packet as
   * new as the last clear is ever wiped, and no older one is ever sent.
   */
  lemma {:induction false} WipesFollowClears(c: Config, run: seq<Action>, k: nat) returns (j: nat)
    requires ValidConfig(c) && IsRun(c, run)
    requires k < |StateAfter(c, run).value.trace| && IsClaim(StateAfter(c, run).value.trace[k].kind)
    ensures var trace := StateAfter(c, run).value.trace;
      j < k && StaysFrom(trace, j, k, trace[k].kind.node, trace[k].kind.packet)
      && WipedIffCleared(trace, j, k, trace[k].kind.node)
    decreases |run|
  {
    hide ValidConfig, ValidOrder, Good, Sane, TasksWait, Enabled, Perform, AtRest, Tracked, StaysFrom, WipedIffCleared,
      Adds;
    if run == [] {
      assert false;
    } else {
      RunSnoc(c, run);
      hide StateAfter;
      var init, a := run[..|run| - 1], run[|run| - 1];
      var order := SomeOrder(c);
      RunsAreGood(c, order, init);
      RunSends.RunIsSorted(c, order, run);
      var s, s1 := StateAfter(c, init).value, StateAfter(c, run).value;
      if k < |s.trace| {
        var more := AddedSteps(c, init, a);
        j := WipesFollowClears(c, init, k);
        StillJudged(s.trace, more, j, k, s.trace[k].kind.node, s.trace[k].kind.packet);
      } else {
        j := NewClaimJudged(c, order, s, a, k);
      }
    }
  }

  lemma AddedSteps(c: Config, run: seq<Action>, a: Action) returns (more: seq<Step>)
    requires ValidConfig(c) && IsRun(c, run)
    requires Sane(c, StateAfter(c, run).value) && Enabled(c, StateAfter(c, run).value, a)
    ensures Perform(c, StateAfter(c, run).value, a).trace == StateAfter(c, run).value.trace + more
  {
    hide ValidConfig, StateAfter, Sane, TasksWait, Enabled, Perform, AtRest;
    RunsAreSane(c, run);
    var kinds := ActionAdds(c, StateAfter(c, run).value, a);
    more := Devices.StepsAt(kinds, StateAfter(c, run).value.now);
  }
}
