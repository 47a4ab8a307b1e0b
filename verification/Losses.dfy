/** Which packets are lost on links, in every run and as its trace alone tells. */
module Losses {
  import opened Types
  import opened Network
  import opened Status
  import opened Simulator
  import opened NodeReplay
  import opened Replay
  import opened Ledger
  import opened Agreement
  import opened AgreementRuns
  import opened TraceFlights
  import opened TraceFacts
  import opened LinkTasks
  import opened LinkMoves
  import opened LinkDecisions
  import opened Arrivals
  import opened LinkFifo
  import opened Sanity
  import opened Runs
  import opened RunStates
  import opened Wipes
  import Devices
  import RunSends

  // ----- When links go down, as the trace tells -----

  /** Step `m` takes the link from up to down. */
  predicate GoesDown(trace: seq<Step>, m: nat, l: LinkId)
    requires m < |trace|
  {
    && SetsLink(trace[m].kind, l) && trace[m].kind.linkEvent.value.status == Some(GoDown)
    && !LinkDownAfter(trace[..m], l)
  }

  /** When the link last went from up to down. */
  function LastEdge(trace: seq<Step>, l: LinkId): Option<Time> {
    if trace == [] then None
    else if GoesDown(trace, |trace| - 1, l) then Some(trace[|trace| - 1].time)
    else LastEdge(trace[..|trace| - 1], l)
  }

  lemma {:induction false} EdgeIsLast(trace: seq<Step>, l: LinkId, t: Time)
    requires TimeSorted(trace)
    ensures LastEdge(trace, l).Some? && t < LastEdge(trace, l).value <==>
      exists m :: 0 <= m < |trace| && GoesDown(trace, m, l) && t < trace[m].time
  {
    hide LinkDownAfter, SetsLink;
    if trace != [] {
      var init := trace[..|trace| - 1];
      EdgeIsLast(init, l, t);
      assert forall m :: 0 <= m < |init| ==> init[m] == trace[m] && init[..m] == trace[..m];
      assert forall m :: 0 <= m < |init| ==> (GoesDown(init, m, l) <==> GoesDown(trace, m, l));
    }
  }

  /** The link stands as the events so far have it. */
  ghost predicate LinkFollows(s: State, l: LinkId) {
    && l in s.links && s.links[l].lastDown == LastEdge(s.trace, l)
    && (s.links[l].status.status.Down? <==> LinkDownAfter(s.trace, l))
  }

  lemma {:induction false} NoEventsNoEdges(trace: seq<Step>, more: seq<Step>, l: LinkId)
    requires forall i :: 0 <= i < |more| ==> !SetsLink(more[i].kind, l)
    ensures LastEdge(trace + more, l) == LastEdge(trace, l)
    ensures LinkDownAfter(trace + more, l) <==> LinkDownAfter(trace, l)
  {
    hide SetsLink;
    if more == [] {
      assert trace + more == trace;
    } else {
      var init := more[..|more| - 1];
      assert (trace + more)[..|trace + more| - 1] == trace + init;
      NoEventsNoEdges(trace, init, l);
    }
  }

  predicate NoLinkEvents(kinds: seq<StepKind>, l: LinkId) {
    forall i :: 0 <= i < |kinds| ==> !SetsLink(kinds[i], l)
  }

  lemma StillFollows(s: State, s1: State, kinds: seq<StepKind>, l: LinkId)
    requires LinkFollows(s, l) && Adds(s, s1, kinds) && NoLinkEvents(kinds, l)
    requires l in s1.links && s1.links[l].status == s.links[l].status && s1.links[l].lastDown == s.links[l].lastDown
    ensures LinkFollows(s1, l)
  {
    hide LastEdge, LinkDownAfter, SetsLink;
    NoEventsNoEdges(s.trace, Devices.StepsAt(kinds, s.now), l);
  }

  lemma FaredKeepsLinks(s: State, s1: State, n: NodeId, f: Fare)
    requires n in s.nodes && Fared(s, s1, n, f)
    ensures s1.links == s.links && Adds(s, s1, f.kinds)
  {
  }

  lemma FaresSetNoLink(spec: NodeSpec, node: SimNode, n: NodeId, p: Packet, roll: Roll, f: Fare, l: LinkId)
    requires Fares(spec, node, n, p, roll, f)
    ensures NoLinkEvents(f.kinds, l)
  {
    hide ForHost;
    assert f.kinds == [f.kinds[0]] + f.kinds[1..];
  }

  lemma ComersFollow(c: Config, s: State, a: Action, l: LinkId)
    requires ValidConfig(c) && Sane(c, s) && Enabled(c, s, a) && (a.Create? || a.RunForwarder?) && LinkFollows(s, l)
    ensures LinkFollows(Perform(c, s, a), l)
  {
    hide ValidConfig, Sane, Enabled, Perform, Fared, Fares, LinkFollows, NoLinkEvents, Adds;
    var s1 := Perform(c, s, a);
    Follower(s, l);
    if a.Create? {
      var f := CreationsFare(c, s, a);
      FaresSetNoLink(c.nodes[a.node], s.nodes[a.node], a.node, NewPacket(s, a), a.roll, f, l);
      FaredKeepsLinks(s, s1, a.node, f);
      StillFollows(s, s1, f.kinds, l);
    } else {
      var f := ArrivalsFare(c, s, a);
      var r, m := s.log[a.record], TargetNode(c, a.link);
      if After(s.links[a.link].lastDown, r.fate.sent) {
        LossSetsNoLink(s, s1, r.packet.id, a.link, l);
        StillFollows(s, s1, [PacketLostInTransit(r.packet.id, a.link)], l);
      } else {
        FaresSetNoLink(c.nodes[m], s.nodes[m], m, r.packet, a.roll, f, l);
        FaredKeepsLinks(s, s1, m, f);
        StillFollows(s, s1, f.kinds, l);
      }
    }
  }

  lemma Follower(s: State, l: LinkId)
    requires LinkFollows(s, l)
    ensures l in s.links
  {
  }

  lemma LossSetsNoLink(s: State, s1: State, lost: PacketId, on: LinkId, l: LinkId)
    requires s1.trace == s.trace + [Step(s.now, PacketLostInTransit(lost, on))]
    ensures Adds(s, s1, [PacketLostInTransit(lost, on)]) && NoLinkEvents([PacketLostInTransit(lost, on)], l)
  {
  }

  lemma TasksFollow(c: Config, s: State, a: Action, l: LinkId)
    requires ValidConfig(c) && Sane(c, s) && TasksWait(c, s) && Enabled(c, s, a) && OfLinkTask(a) && LinkFollows(s, l)
    ensures LinkFollows(Perform(c, s, a), l)
  {
    hide ValidConfig, Sane, TasksWait, Enabled, Perform, Works, DecidesStart, DecidesResume, LinkFollows, NoLinkEvents, Adds;
    Follower(s, l);
    var o, rest, d := TasksDecide(c, s, a);
    var s1 := Perform(c, s, a);
    var kinds := DecisionSetsNoLink(c, s, s1, a.link, o, d, l);
    StillFollows(s, s1, kinds, l);
  }

  lemma DecisionSetsNoLink(c: Config, s: State, s1: State, at: LinkId, o: Offer, d: Decision, l: LinkId)
    returns (kinds: seq<StepKind>)
    requires at in c.links && o.record < |s.log| && Done(c, s, s1, at, o, d)
    ensures Adds(s, s1, kinds) && NoLinkEvents(kinds, l)
  {
    var r := s.log[o.record];
    kinds := if d.Wipes? then [PacketDropped(r.packet.id, r.node, BufferCleared)]
             else if d.SendsIt? then [PacketInTransit(r.packet.id, r.node, at)] else [];
    if kinds != [] {
      OneStep(s, kinds[0]);
    }
  }

  lemma OffersKeepLinks(c: Config, s: State, a: Action, l: LinkId)
    requires ValidConfig(c) && Sane(c, s) && Enabled(c, s, a) && a.RunNodeTask? && l in s.links
    ensures var s1 := Perform(c, s, a);
      l in s1.links && s1.links[l].status == s.links[l].status && s1.links[l].lastDown == s.links[l].lastDown
  {
    KnownToBoth(c, s);
    hide ValidConfig, Candidates, OfferNext, Offered;
    var at := EveryCandidateIsOffered(c, s, a.node, a.slow, l);
  }

  lemma EventFollows(s: State, e: LinkEvent, l: LinkId)
    requires LinkFollows(s, l) && e.link in s.links
    ensures LinkFollows(ProcessLinkEvent(s, e), l)
  {
    var trace1 := ProcessLinkEvent(s, e).trace;
    assert trace1[..|trace1| - 1] == s.trace;
  }

  lemma QuietFollow(c: Config, s: State, a: Action, l: LinkId)
    requires ValidConfig(c) && Sane(c, s) && Enabled(c, s, a) && !OfLinkTask(a) && !a.Create? && !a.RunForwarder?
    requires LinkFollows(s, l)
    ensures LinkFollows(Perform(c, s, a), l)
  {
    hide ValidConfig, Sane, LinkFollows, Adds, NoLinkEvents, OfferNext, CreatePacket, PerformOnLink, ProcessLinkEvent;
    Follower(s, l);
    if a.LinkChange? {
      EventFollows(s, a.linkEvent, l);
    } else {
      var kinds := QuietAdds(c, s, a);
      QuietSetsNoLink(c, s, a, l);
      if a.RunNodeTask? {
        OffersKeepLinks(c, s, a, l);
      }
      StillFollows(s, Perform(c, s, a), kinds, l);
    }
  }

  lemma QuietSetsNoLink(c: Config, s: State, a: Action, l: LinkId)
    requires ValidConfig(c) && Sane(c, s) && Enabled(c, s, a) && !a.LinkChange?
    ensures NoLinkEvents(QuietKinds(c, s, a), l)
  {
    hide ValidConfig, Sane;
  }

  lemma ActionFollows(c: Config, s: State, a: Action, l: LinkId)
    requires ValidConfig(c) && Sane(c, s) && TasksWait(c, s) && Enabled(c, s, a) && LinkFollows(s, l)
    ensures LinkFollows(Perform(c, s, a), l)
  {
    hide ValidConfig, Sane, TasksWait, Enabled, Perform, LinkFollows;
    if OfLinkTask(a) {
      TasksFollow(c, s, a, l);
    } else if a.Create? || a.RunForwarder? {
      ComersFollow(c, s, a, l);
    } else {
      QuietFollow(c, s, a, l);
    }
  }

  /** In every run, a link's status is that of its last status event, and it remembers when it last went from up to down. */
  lemma {:induction false} LinksFollowEvents(c: Config, run: seq<Action>, l: LinkId)
    requires ValidConfig(c) && IsRun(c, run) && l in c.links
    ensures LinkFollows(StateAfter(c, run).value, l)
  {
    hide ValidConfig, Sane, TasksWait, Enabled, Perform, LinkFollows, AtRest;
    if run == [] {
      StartFollows(c, l);
    } else {
      RunSnoc(c, run);
      hide StateAfter;
      var init := run[..|run| - 1];
      LinksFollowEvents(c, init, l);
      RunsAreSane(c, init);
      ActionFollows(c, StateAfter(c, init).value, run[|run| - 1], l);
    }
  }

  lemma StartFollows(c: Config, l: LinkId)
    requires l in c.links
    ensures LinkFollows(Start(c), l)
  {
  }

  // ----- What comes off a link -----

  predicate TakesOffLink(trace: seq<Step>, k: nat)
    requires k < |trace|
  {
    trace[k].kind.PacketLostInTransit? || (trace[k].kind.PacketInNode? && trace[k].kind.packet in Flights(trace[..k]))
  }

  /** Step `k` loses its packet exactly if the link went down at a time later than that of the packet's send. */
  ghost predicate LostIffDown(trace: seq<Step>, k: nat)
    requires k < |trace|
  {
    var kind := trace[k].kind;
    && (kind.PacketLostInTransit? || kind.PacketInNode?) && kind.packet in Flights(trace[..k])
    && var f := Flights(trace[..k])[kind.packet];
       && (kind.PacketLostInTransit? ==> kind.link == f.link)
       && (kind.PacketLostInTransit? <==> exists m :: 0 <= m < k && GoesDown(trace, m, f.link) && f.sent < trace[m].time)
  }

  lemma LandingJudged(trace: seq<Step>, k: nat, f: Flight)
    requires k < |trace| && TimeSorted(trace)
    requires var kind := trace[k].kind;
      && (kind.PacketLostInTransit? || kind.PacketInNode?) && kind.packet in Flights(trace[..k])
      && Flights(trace[..k])[kind.packet] == f && (kind.PacketLostInTransit? ==> kind.link == f.link)
      && (kind.PacketLostInTransit? <==>
            LastEdge(trace[..k], f.link).Some? && f.sent < LastEdge(trace[..k], f.link).value)
    ensures LostIffDown(trace, k)
  {
    hide Flights, LastEdge, LinkDownAfter, SetsLink;
    var before := trace[..k];
    EdgeIsLast(before, f.link, f.sent);
    assert forall m :: 0 <= m < k ==> before[m] == trace[m] && before[..m] == trace[..m];
    assert forall m :: 0 <= m < k ==> (GoesDown(before, m, f.link) <==> GoesDown(trace, m, f.link));
  }

  lemma StillJudgedLater(trace: seq<Step>, more: seq<Step>, k: nat)
    requires k < |trace|
    ensures TakesOffLink(trace + more, k) <==> TakesOffLink(trace, k)
    ensures LostIffDown(trace + more, k) <==> LostIffDown(trace, k)
  {
    hide Flights, LinkDownAfter, SetsLink;
    assert forall m :: 0 <= m < |trace| ==> (trace + more)[m] == trace[m] && (trace + more)[..m] == trace[..m];
    assert forall m, l :: 0 <= m < |trace| ==> (GoesDown(trace + more, m, l) <==> GoesDown(trace, m, l));
  }

  /** What comes off a link does so as the first step of an arrival. */
  lemma OnlyArrivalsLand(c: Config, s: State, a: Action, k: nat)
    requires ValidConfig(c) && Sane(c, s) && TasksWait(c, s) && Enabled(c, s, a)
    requires |s.trace| <= k < |Perform(c, s, a).trace| && TakesOffLink(Perform(c, s, a).trace, k)
    requires FlightsMatch(s) && IdsUsed(s.log, s.used)
    ensures k == |s.trace| && Perform(c, s, a).trace[..k] == s.trace && a.RunForwarder?
  {
    hide ValidConfig, Sane, TasksWait, Enabled, Perform, Shows, LinkActionOutcome, FlightsMatch, IdsUsed, WillSend, Flights;
    var s1 := Perform(c, s, a);
    if OfLinkTask(a) {
      TaskLandsNothing(c, s, a, k);
      assert false;
    } else if a.Create? {
      var kinds := CreateAdds(c, s, a);
      ShownIs(c, s, a, kinds[0]);
      FirstAdded(s, s1, kinds, k);
      CreatedIsFresh(c, s, a);
      assert false;
    } else if a.RunForwarder? {
      var kinds := ArrivalAdds(c, s, a);
      FirstAdded(s, s1, kinds, k);
    } else {
      var kinds := QuietAdds(c, s, a);
      QuietLandsNothing(s, s1, kinds, k);
      assert false;
    }
  }

  lemma TaskLandsNothing(c: Config, s: State, a: Action, k: nat)
    requires ValidConfig(c) && Sane(c, s) && TasksWait(c, s) && Enabled(c, s, a) && OfLinkTask(a)
    requires |s.trace| <= k < |Perform(c, s, a).trace|
    ensures !TakesOffLink(Perform(c, s, a).trace, k)
  {
    hide ValidConfig, Sane, TasksWait, Enabled, Perform, Works, Done, SpaceAfter, DecidesStart, DecidesResume;
    var o, rest, d := TasksDecide(c, s, a);
    DecisionAdds(c, s, Perform(c, s, a), a.link, o, d);
  }

  lemma ShownIs(c: Config, s: State, a: Action, k: StepKind)
    requires ValidConfig(c) && Sane(c, s) && Enabled(c, s, a) && a.Create? && Shows(c, s, a, k)
    ensures k.PacketInNode? && k.packet == a.id
  {
    hide ValidConfig, Sane;
  }

  lemma FirstAdded(s: State, s1: State, kinds: seq<StepKind>, k: nat)
    requires Adds(s, s1, kinds) && QuietFrom(kinds, 1) && |s.trace| <= k < |s1.trace| && TakesOffLink(s1.trace, k)
    ensures k == |s.trace| && s1.trace[..k] == s.trace && kinds != [] && s1.trace[k] == Step(s.now, kinds[0])
  {
    hide Flights;
    assert s1.trace[k].kind == kinds[k - |s.trace|];
  }

  lemma QuietLandsNothing(s: State, s1: State, kinds: seq<StepKind>, k: nat)
    requires Adds(s, s1, kinds) && QuietFrom(kinds, 0) && |s.trace| <= k < |s1.trace|
    ensures !TakesOffLink(s1.trace, k)
  {
    hide Flights;
    assert s1.trace[k].kind == kinds[k - |s.trace|];
  }

  lemma CreatedIsFresh(c: Config, s: State, a: Action)
    requires ValidConfig(c) && Sane(c, s) && Enabled(c, s, a) && a.Create? && FlightsMatch(s) && IdsUsed(s.log, s.used)
    ensures a.id !in Flights(s.trace)
  {
    hide ValidConfig, Sane, Flights;
  }

  lemma FirstOfArrival(c: Config, s: State, a: Action, k: nat)
    requires ValidConfig(c) && Sane(c, s) && TasksWait(c, s) && Enabled(c, s, a) && a.RunForwarder?
    requires k == |s.trace| < |Perform(c, s, a).trace|
    ensures a.record < |s.log| && s.log[a.record].fate.InTransit? && a.link in s.links && a.link in c.links
    ensures s.log[a.record].fate.link == a.link
    ensures var kind, r, lastDown := Perform(c, s, a).trace[k].kind, s.log[a.record], s.links[a.link].lastDown;
      if lastDown.Some? && r.fate.sent < lastDown.value then kind == PacketLostInTransit(r.packet.id, a.link)
      else kind.PacketInNode? && kind.packet == r.packet.id
  {
    hide ValidConfig, Sane, TasksWait, Enabled, Perform;
    ArrivalIs(c, s, a);
    var kinds := ArrivalAdds(c, s, a);
    ArrivalShows(c, s, a, kinds[0]);
    assert Perform(c, s, a).trace[k].kind == kinds[0];
  }

  lemma ArrivalShows(c: Config, s: State, a: Action, k: StepKind)
    requires ValidConfig(c) && Sane(c, s) && Enabled(c, s, a) && a.RunForwarder? && Shows(c, s, a, k)
    ensures a.record < |s.log| && s.log[a.record].fate.InTransit? && a.link in s.links
    ensures var r, lastDown := s.log[a.record], s.links[a.link].lastDown;
      if lastDown.Some? && r.fate.sent < lastDown.value then k == PacketLostInTransit(r.packet.id, a.link)
      else k.PacketInNode? && k.packet == r.packet.id
  {
    hide ValidConfig, Sane, TargetNode;
  }

  lemma NewLandingJudged(c: Config, s: State, a: Action, k: nat)
    requires ValidConfig(c) && Sane(c, s) && TasksWait(c, s) && Enabled(c, s, a)
    requires |s.trace| <= k < |Perform(c, s, a).trace| && TakesOffLink(Perform(c, s, a).trace, k)
    requires FlightsMatch(s) && IdsUsed(s.log, s.used) && forall l :: l in c.links ==> LinkFollows(s, l)
    requires TimeSorted(Perform(c, s, a).trace)
    ensures LostIffDown(Perform(c, s, a).trace, k)
  {
    hide ValidConfig, Sane, TasksWait, Enabled, Perform, IdsUsed, Flights, LastEdge, LinkDownAfter;
    OnlyArrivalsLand(c, s, a, k);
    FirstOfArrival(c, s, a, k);
    var r := s.log[a.record];
    assert LinkFollows(s, a.link);
    LandingJudged(Perform(c, s, a).trace, k, Flight(r.fate.link, r.fate.sent));
  }

  /**
   * Which packets are lost, in every run: every packet that comes off a link was sent over it and
   * not taken off before, and it is lost there, and does not arrive, exactly if some event strictly
   * later than its send took the link from up to down. A Down for a link that is down already, and
   * one at the very time of the send, lose nothing.
   */
  lemma {:induction false} LossesFollowEdges(c: Config, run: seq<Action>, k: nat)
    requires ValidConfig(c) && IsRun(c, run)
    requires k < |StateAfter(c, run).value.trace| && TakesOffLink(StateAfter(c, run).value.trace, k)
    ensures LostIffDown(StateAfter(c, run).value.trace, k)
    decreases |run|
  {
    hide ValidConfig, ValidOrder, Sane, TasksWait, Enabled, Perform, AtRest, LinkFollows, FlightsMatch, IdsUsed,
      TakesOffLink, LostIffDown;
    if run == [] {
      assert false;
    } else {
      RunSnoc(c, run);
      hide StateAfter;
      var init, a := run[..|run| - 1], run[|run| - 1];
      var s := StateAfter(c, init).value;
      var more := AddedSteps(c, init, a);
      if k < |s.trace| {
        StillJudgedLater(s.trace, more, k);
        LossesFollowEdges(c, init, k);
      } else {
        var order := SomeOrder(c);
        RunSends.RunIsSorted(c, order, run);
        RunsAreSane(c, init);
        FlightsInRuns(c, init);
        forall l | l in c.links
          ensures LinkFollows(s, l)
        {
          LinksFollowEvents(c, init, l);
        }
        NewLandingJudged(c, s, a, k);
      }
    }
  }
}
