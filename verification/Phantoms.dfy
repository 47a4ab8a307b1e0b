/** Packets that hosts created while they were down: the simulator forgets them, and the verifier reports them. */
module Phantoms {
  import opened Types
  import opened Network
  import opened Status
  import opened Simulator
  import opened BandwidthWindow
  import opened NodeReplay
  import opened Replay
  import opened ReplayTotals
  import opened TraceFlights
  import opened Ledger
  import opened Agreement
  import opened AgreementRuns
  import opened LinkTasks
  import opened LinkMoves
  import opened Sanity
  import opened Runs
  import opened RunStates
  import opened LinkOrder
  import opened LinkFifo
  import opened FifoRuns
  import ErrorCauses
  import Devices
  import Pacing

  lemma NodeStatusInRuns(c: Config, run: seq<Action>, n: NodeId)
    requires ValidConfig(c) && IsRun(c, run) && n in c.nodes
    ensures var s := StateAfter(c, run).value; n in s.nodes && (NodeUp(s, n) <==> !ErrorCauses.DownAfter(s.trace, n))
  {
    var order := SomeOrder(c);
    var s := StateAfter(c, run).value;
    RunsAreGood(c, order, run);
    GoodIsSane(c, order, s);
    hide ValidConfig, ValidOrder, StateAfter, Sane, TasksWait, AtRest, Good, ReplayTrace, AdvanceTo, WellFormed, ErrorCauses.DownAfter,
      Agrees;
    StatusAgrees(c, s, Present(c, order, s), n);
    ErrorCauses.StatusFollowsTrace(MetaOf(c), order, s.trace, n);
    ErrorCauses.AdvanceKeepsStatus(MetaOf(c), order, ReplayTrace(MetaOf(c), order, s.trace).st, s.now, n);
  }

  lemma StatusAgrees(c: Config, s: State, r: ReplayState, n: NodeId)
    requires ValidConfig(c) && Agrees(c, s, r) && n in c.nodes
    ensures n in s.nodes && n in r.nodes && n in MetaOf(c).bufferSizes && (r.nodes[n].up <==> NodeUp(s, n))
  {
    hide ValidConfig, Mirrored, LinksMirrored, FlightsKnown, Accounted, RoutersFit, IdsUsed, RecordsPlaced, ErrorsExcused,
      WellFormed;
  }

  // ----- Where phantoms come from -----

  /** No record turned into a phantom. */
  predicate NoneTurned(log: seq<Record>, log1: seq<Record>) {
    && |log| <= |log1|
    && forall i :: 0 <= i < |log| && log1[i].fate.Phantom? ==>
         log[i].fate.Phantom? && log1[i].node == log[i].node && log1[i].packet == log[i].packet
  }

  /** New phantoms, if there are any, are of that packet in that node. */
  predicate NewPhantomsAre(log: seq<Record>, log1: seq<Record>, n: NodeId, id: PacketId) {
    forall i :: |log| <= i < |log1| && log1[i].fate.Phantom? ==> log1[i].node == n && log1[i].packet.id == id
  }

  predicate NoNewPhantoms(log: seq<Record>, log1: seq<Record>) {
    forall i :: |log| <= i < |log1| ==> !log1[i].fate.Phantom?
  }

  lemma EnqueueMakesNone(s: State, i: nat)
    requires i < |s.log| && s.log[i].node in s.nodes
    ensures NoneTurned(s.log, EnqueueOutbound(s, i).log) && |EnqueueOutbound(s, i).log| == |s.log|
    ensures EnqueueOutbound(s, i).nodes.Keys == s.nodes.Keys
  {
  }

  lemma NoneTurnedEither(log: seq<Record>, log1: seq<Record>, r: Record, log2: seq<Record>)
    requires NoneTurned(log, log1) && |log1| == |log| && !r.fate.Phantom? && NoneTurned(log1 + [r], log2)
    requires |log2| == |log1| + 1
    ensures NoneTurned(log, log2) && NoNewPhantoms(log, log2)
  {
    assert (log1 + [r])[|log|] == r;
    assert forall i :: 0 <= i < |log| ==> (log1 + [r])[i] == log1[i];
  }

  lemma PlaceMakesNone(c: Config, s: State, i: nat, roll: Roll)
    requires ValidConfig(c) && i < |s.log| && s.log[i].node in s.nodes && s.log[i].node in c.nodes
    ensures NoneTurned(s.log, Place(c, s, i, roll).log) && NoNewPhantoms(s.log, Place(c, s, i, roll).log)
  {
    hide ValidConfig, IsEndpoint;
    EnqueueMakesNone(s, i);
    if roll.Duplicate? {
      var s1, p := EnqueueOutbound(s, i), s.log[i].packet.(id := roll.id);
      var s2 := ArriveDuplicate(s1, s.log[i].node, p);
      EnqueueMakesNone(s2, |s.log|);
      hide EnqueueOutbound, NoneTurned, NoNewPhantoms;
      NoneTurnedEither(s.log, s1.log, Record(s.log[i].node, p, s.now, Arriving), EnqueueOutbound(s2, |s.log|).log);
    }
  }

  lemma ForwardMakes(c: Config, s: State, n: NodeId, p: Packet, roll: Roll, origin: Option<nat>)
    requires ValidConfig(c) && n in s.nodes && n in c.nodes
    requires origin.Some? ==> origin.value < |s.log| && s.log[origin.value].fate.InTransit?
    ensures NoneTurned(s.log, Forward(c, s, n, p, roll, origin).log)
    ensures NewPhantomsAre(s.log, Forward(c, s, n, p, roll, origin).log, n, p.id)
    ensures NodeUp(s, n) || origin.Some? ==> NoNewPhantoms(s.log, Forward(c, s, n, p, roll, origin).log)
  {
    hide ValidConfig, Place;
    if NodeUp(s, n) {
      var s1 := Arrive(s, n, p, origin);
      PlaceMakesNone(c, s1, |s.log|, roll);
      ArrivedMakesNone(s, n, p, origin, Place(c, s1, |s.log|, roll).log);
    }
  }

  lemma ArrivedMakesNone(s: State, n: NodeId, p: Packet, origin: Option<nat>, log: seq<Record>)
    requires origin.Some? ==> origin.value < |s.log| && s.log[origin.value].fate.InTransit?
    requires var log1 := Arrive(s, n, p, origin).log; NoneTurned(log1, log) && NoNewPhantoms(log1, log)
    ensures NoneTurned(s.log, log) && NoNewPhantoms(s.log, log)
  {
    var log1 := Arrive(s, n, p, origin).log;
    assert !log1[|s.log|].fate.Phantom?;
  }

  /** Whether the action creates the packet in a node that is down. */
  ghost predicate CreatesWhileDown(s: State, a: Action, n: NodeId, id: PacketId) {
    a.Create? && a.node == n && a.id == id && n in s.nodes && !NodeUp(s, n)
  }

  lemma CreateMakes(c: Config, s: State, a: Action)
    requires ValidConfig(c) && Sane(c, s) && Enabled(c, s, a) && a.Create?
    ensures NoneTurned(s.log, Perform(c, s, a).log) && NewPhantomsAre(s.log, Perform(c, s, a).log, a.node, a.id)
    ensures a.node in s.nodes && (NodeUp(s, a.node) ==> NoNewPhantoms(s.log, Perform(c, s, a).log))
  {
    hide ValidConfig, Sane, Enabled, Perform, Forward, NoneTurned, NewPhantomsAre, NoNewPhantoms;
    CreateIs(c, s, a);
    ForwardMakes(c, WithCreated(s, a), a.node, NewPacket(s, a), a.roll, None);
  }

  lemma DeliverMakesNone(c: Config, s: State, l: LinkId, i: nat, roll: Roll)
    requires ValidConfig(c) && l in c.links && l in s.links && TargetNode(c, l) in s.nodes && TargetNode(c, l) in c.nodes
    requires i < |s.log| && s.log[i].fate.InTransit?
    ensures NoneTurned(s.log, Deliver(c, s, l, i, roll).log) && NoNewPhantoms(s.log, Deliver(c, s, l, i, roll).log)
  {
    hide ValidConfig, Forward, TargetNode;
    if !After(s.links[l].lastDown, s.log[i].fate.sent) {
      ForwardMakes(c, s, TargetNode(c, l), s.log[i].packet, roll, Some(i));
    }
  }

  lemma ArrivalMakesNone(c: Config, s: State, a: Action)
    requires ValidConfig(c) && Sane(c, s) && Enabled(c, s, a) && a.RunForwarder?
    ensures NoneTurned(s.log, Perform(c, s, a).log) && NoNewPhantoms(s.log, Perform(c, s, a).log)
  {
    hide ValidConfig, Sane, Enabled, Perform, Deliver, TargetNode, NoneTurned, NoNewPhantoms;
    ArrivalIs(c, s, a);
    DeliverMakesNone(c, WithRolled(s, a), a.link, a.record, a.roll);
  }

  lemma QuietMakesNone(c: Config, s: State, a: Action)
    requires ValidConfig(c) && Sane(c, s) && Enabled(c, s, a)
    requires a.Tick? || a.AppRead? || a.LinkChange? || a.NodeChange?
    ensures NoneTurned(s.log, Perform(c, s, a).log) && NoNewPhantoms(s.log, Perform(c, s, a).log)
  {
    hide ValidConfig, Sane;
  }

  lemma TaskMakesNone(c: Config, s: State, a: Action, s1: State, goes: bool)
    requires ValidConfig(c) && Sane(c, s) && Enabled(c, s, a) && OfLinkTask(a) && LinkActionOutcome(c, s, a, s1, goes)
    ensures NoneTurned(s.log, s1.log) && NoNewPhantoms(s.log, s1.log)
  {
    TaskLinkKnown(c, s, a);
    hide ValidConfig, Sane, Enabled, Tickets, LinkMoves.Outcome, NoneTurned, NoNewPhantoms;
    OutcomeMakesNone(c, s, s1, a.link, Tickets(s.links[a.link])[0], goes);
  }

  lemma OutcomeMakesNone(c: Config, s: State, s1: State, l: LinkId, t: Ticket, goes: bool)
    requires l in s.links && l in c.links && c.links[l].bandwidthBps > 0 && t.record < |s.log|
    requires LinkMoves.Outcome(c, s, s1, l, t, goes)
    ensures NoneTurned(s.log, s1.log) && NoNewPhantoms(s.log, s1.log)
  {
    hide Tickets, MovesUp, Pacing.CanSend, Pacing.TrackSend;
  }

  /** Phantoms stay what they are, and new ones are made only by a creation in a node that is down. */
  lemma ActionMakes(c: Config, s: State, a: Action, i: nat)
    requires ValidConfig(c) && Sane(c, s) && TasksWait(c, s) && Enabled(c, s, a)
    requires i < |Perform(c, s, a).log| && Perform(c, s, a).log[i].fate.Phantom?
    ensures var r := Perform(c, s, a).log[i];
      || (i < |s.log| && s.log[i].fate.Phantom? && s.log[i].node == r.node && s.log[i].packet == r.packet)
      || CreatesWhileDown(s, a, r.node, r.packet.id)
  {
    hide ValidConfig, Sane, TasksWait, Enabled, Perform, LinkActionOutcome;
    if OfLinkTask(a) {
      LinkTaskOutcome(c, s, a);
      TaskMakesNone(c, s, a, Perform(c, s, a), WillSend(c, s, a));
    } else if a.Create? {
      CreateMakes(c, s, a);
    } else if a.RunForwarder? {
      ArrivalMakesNone(c, s, a);
    } else if a.RunNodeTask? {
      OffersAddNothing(c, s, a);
    } else {
      QuietMakesNone(c, s, a);
    }
  }

  // ----- What the trace tells of them -----

  lemma StaysAdded(trace: seq<Step>, more: seq<Step>, n: NodeId, id: PacketId)
    requires exists k :: ErrorCauses.AddedWhileDown(trace, k, n, id)
    ensures exists k :: ErrorCauses.AddedWhileDown(trace + more, k, n, id)
  {
    hide Flights, ErrorCauses.DownAfter;
    var k: nat :| ErrorCauses.AddedWhileDown(trace, k, n, id);
    assert (trace + more)[..k] == trace[..k];
    assert ErrorCauses.AddedWhileDown(trace + more, k, n, id);
  }

  lemma NowAdded(c: Config, s: State, a: Action, kinds: seq<StepKind>)
    requires ValidConfig(c) && Sane(c, s) && Enabled(c, s, a) && a.Create? && kinds != [] && Shows(c, s, a, kinds[0])
    requires a.id !in Flights(s.trace) && ErrorCauses.DownAfter(s.trace, a.node)
    ensures exists k :: ErrorCauses.AddedWhileDown(s.trace + Devices.StepsAt(kinds, s.now), k, a.node, a.id)
  {
    hide ValidConfig, Sane, Enabled, Flights, ErrorCauses.DownAfter;
    var trace := s.trace + Devices.StepsAt(kinds, s.now);
    assert trace[..|s.trace|] == s.trace && trace[|s.trace|].kind == kinds[0];
    assert ErrorCauses.AddedWhileDown(trace, |s.trace|, a.node, a.id);
  }

  lemma NewPhantomShown(c: Config, run: seq<Action>, a: Action)
    requires ValidConfig(c) && IsRun(c, run)
    requires Sane(c, StateAfter(c, run).value) && Enabled(c, StateAfter(c, run).value, a)
    requires a.Create? && a.node in StateAfter(c, run).value.nodes && !NodeUp(StateAfter(c, run).value, a.node)
    ensures exists k ::
      ErrorCauses.AddedWhileDown(Perform(c, StateAfter(c, run).value, a).trace, k, a.node, a.id)
  {
    hide ValidConfig, Sane, Enabled, Perform, StateAfter, Flights, FlightsMatch, IdsUsed, ErrorCauses.DownAfter, Shows,
      QuietFrom, ErrorCauses.AddedWhileDown;
    var s := StateAfter(c, run).value;
    CreateIsFresh(c, s, a);
    FlightsInRuns(c, run);
    FlyingIdsAreUsed(s);
    CreateIs(c, s, a);
    NodeStatusInRuns(c, run, a.node);
    var kinds := CreateAdds(c, s, a);
    NowAdded(c, s, a, kinds);
  }

  /** Every phantom of a run was put into its node by a step of the trace, after the node's last status event was a Down. */
  lemma {:induction false} PhantomsAreShown(c: Config, run: seq<Action>, i: nat)
    requires ValidConfig(c) && IsRun(c, run)
    requires i < |StateAfter(c, run).value.log| && StateAfter(c, run).value.log[i].fate.Phantom?
    ensures var s := StateAfter(c, run).value;
      exists k :: ErrorCauses.AddedWhileDown(s.trace, k, s.log[i].node, s.log[i].packet.id)
  {
    hide ValidConfig, Sane, TasksWait, Enabled, Perform, AtRest, ErrorCauses.AddedWhileDown;
    if run == [] {
      assert false;
    } else {
      RunSnoc(c, run);
      hide StateAfter;
      var init, a := run[..|run| - 1], run[|run| - 1];
      var s := StateAfter(c, init).value;
      RunsAreSane(c, init);
      ActionMakes(c, s, a, i);
      var kinds := ActionAdds(c, s, a);
      var r := StateAfter(c, run).value.log[i];
      if CreatesWhileDown(s, a, r.node, r.packet.id) {
        NewPhantomShown(c, init, a);
      } else {
        PhantomsAreShown(c, init, i);
        StaysAdded(s.trace, Devices.StepsAt(kinds, s.now), r.node, r.packet.id);
      }
    }
  }
}
