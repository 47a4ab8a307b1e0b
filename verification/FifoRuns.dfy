/** In any run, a link sends its offers in queue order, and packets that it delays alike come off it in that order. */
module FifoRuns {
  import opened Types
  import opened Network
  import opened Status
  import opened Simulator
  import opened LinkTasks
  import opened Sanity
  import opened LinkMoves
  import opened Ledger
  import opened Agreement
  import opened AgreementRuns
  import opened RunStates
  import opened LinkOrder
  import opened TraceFlights
  import opened LinkFifo
  import Deliveries
  import Devices
  import InboundQueues
  import opened QueueContents
  import Pacing

  // ----- What an action does to the packets on a link -----

  /** The packets on the link are as before, and none came off it. */
  ghost predicate LinkUndisturbed(s: State, s1: State, l: LinkId) {
    SameFlights(s, s1, l) && LandedFrom(s1.trace, l) == LandedFrom(s.trace, l)
  }

  lemma AddsNoLandings(s: State, s1: State, kinds: seq<StepKind>, l: LinkId)
    requires Adds(s, s1, kinds)
    requires forall i :: 0 < i < |kinds| ==> EndsNoFlight(kinds[i])
    requires kinds != [] ==> !Lands(Flights(s.trace), kinds[0], l)
    ensures LandedFrom(s1.trace, l) == LandedFrom(s.trace, l)
  {
    LandedAppend(s.trace, Devices.StepsAt(kinds, s.now), l);
  }

  lemma OutcomeFlights(c: Config, s: State, s1: State, m: LinkId, t: Ticket, goes: bool, l: LinkId)
    requires m in s.links && m in c.links && c.links[m].bandwidthBps > 0 && t.record < |s.log|
    requires Outcome(c, s, s1, m, t, goes) && (goes ==> l != m)
    ensures SameFlights(s, s1, l)
  {
    hide Tickets, MovesUp, Pacing.CanSend, Pacing.TrackSend;
  }

  lemma NoChangesKeepFlights(s: State, s1: State, l: LinkId)
    requires NoFlightChanges(s.log, s1.log)
    ensures SameFlights(s, s1, l)
  {
  }

  lemma SameLogKeepsFlights(s: State, s1: State, l: LinkId)
    requires s1.log == s.log
    ensures SameFlights(s, s1, l)
  {
  }

  lemma ArrivesKeepFlights(s: State, s1: State, l: LinkId)
    requires OnlyArrives(s.log, s1.log, None)
    ensures SameFlights(s, s1, l)
  {
  }

  lemma LandsElsewhere(s: State, s1: State, m: LinkId, i: nat, l: LinkId)
    requires m in s.links && i < |s.log| && s.log[i].fate.InTransit? && s.log[i].fate.link == m && m != l
    requires OnlyLands(s, s1, m, i)
    ensures SameFlights(s, s1, l)
  {
  }

  lemma TaskLandsNone(c: Config, s: State, a: Action, s1: State, goes: bool, l: LinkId)
    requires ValidConfig(c) && Sane(c, s) && Enabled(c, s, a) && OfLinkTask(a) && LinkActionOutcome(c, s, a, s1, goes)
    ensures LandedFrom(s1.trace, l) == LandedFrom(s.trace, l)
  {
    hide ValidConfig, Sane, Enabled, LinkActionOutcome, Adds, LandedFrom, Flights;
    var kinds := OutcomeKinds(c, s, a, s1, goes);
    AddsNoLandings(s, s1, kinds, l);
  }

  lemma TaskKeepsFlights(c: Config, s: State, a: Action, s1: State, goes: bool, l: LinkId)
    requires ValidConfig(c) && Sane(c, s) && Enabled(c, s, a) && OfLinkTask(a) && LinkActionOutcome(c, s, a, s1, goes)
    requires goes ==> l != a.link
    ensures SameFlights(s, s1, l)
  {
    TaskLinkKnown(c, s, a);
    hide ValidConfig, Sane, Enabled, Tickets, Outcome, SameFlights;
    OutcomeFlights(c, s, s1, a.link, Tickets(s.links[a.link])[0], goes, l);
  }

  lemma TaskDisturbsNone(c: Config, s: State, a: Action, l: LinkId)
    requires ValidConfig(c) && Sane(c, s) && TasksWait(c, s) && Enabled(c, s, a) && OfLinkTask(a)
    requires !SendsNow(c, s, a, l)
    ensures LinkUndisturbed(s, Perform(c, s, a), l)
  {
    hide ValidConfig, Sane, TasksWait, Enabled, Perform, SameFlights, LandedFrom, LinkActionOutcome, WillSend;
    LinkTaskOutcome(c, s, a);
    TaskLandsNone(c, s, a, Perform(c, s, a), WillSend(c, s, a), l);
    TaskKeepsFlights(c, s, a, Perform(c, s, a), WillSend(c, s, a), l);
  }

  lemma FlyingIdsAreUsed(s: State)
    requires FlightsMatch(s) && IdsUsed(s.log, s.used)
    ensures forall id :: id in Flights(s.trace) ==> id in s.used
  {
    forall id | id in Flights(s.trace)
      ensures id in s.used
    {
      var i :| FlyingAs(s.log, i, id);
    }
  }

  lemma CreateIsFresh(c: Config, s: State, a: Action)
    requires ValidConfig(c) && Sane(c, s) && Enabled(c, s, a) && a.Create?
    ensures a.id !in s.used
  {
    hide ValidConfig, Sane;
  }

  lemma CreateDisturbsNone(c: Config, s: State, a: Action, l: LinkId)
    requires ValidConfig(c) && Sane(c, s) && Enabled(c, s, a) && a.Create?
    requires FlightsMatch(s) && IdsUsed(s.log, s.used)
    ensures LinkUndisturbed(s, Perform(c, s, a), l)
  {
    CreateIsFresh(c, s, a);
    FlyingIdsAreUsed(s);
    hide ValidConfig, Sane, Enabled, Perform, Adds, FlightsMatch, IdsUsed, OnlyArrives, SameFlights, LandedFrom, Flights;
    var kinds := CreateAdds(c, s, a);
    AddsNoLandings(s, Perform(c, s, a), kinds, l);
    CreateRecords(c, s, a);
    ArrivesKeepFlights(s, Perform(c, s, a), l);
  }

  lemma ShownLands(c: Config, s: State, a: Action, k: StepKind)
    requires ValidConfig(c) && Sane(c, s) && Enabled(c, s, a) && a.RunForwarder? && FlightsMatch(s) && Shows(c, s, a, k)
    ensures a.record < |s.log| && k.packet == s.log[a.record].packet.id && Lands(Flights(s.trace), k, a.link)
    ensures forall l :: l != a.link ==> !Lands(Flights(s.trace), k, l)
  {
    LandingIsOfLink(c, s, a);
    hide ValidConfig, Sane, Enabled, Flights, TargetNode;
  }

  lemma QuietEndsNoFlight(kinds: seq<StepKind>)
    requires QuietFrom(kinds, 1)
    ensures forall i :: 0 < i < |kinds| ==> EndsNoFlight(kinds[i])
  {
  }

  /** What comes off the link that the forwarder is of: the packet it forwards. */
  lemma ArrivalLanding(c: Config, s: State, a: Action, l: LinkId)
    requires ValidConfig(c) && Sane(c, s) && Enabled(c, s, a) && a.RunForwarder? && FlightsMatch(s)
    ensures a.record < |s.log|
    ensures LandedFrom(Perform(c, s, a).trace, l)
         == LandedFrom(s.trace, l) + if a.link == l then [s.log[a.record].packet.id] else []
  {
    hide ValidConfig, Sane, Enabled, Perform, FlightsMatch, LandedFrom, Flights, Shows, QuietFrom, Lands;
    var kinds := ArrivalAdds(c, s, a);
    ShownLands(c, s, a, kinds[0]);
    QuietEndsNoFlight(kinds);
    LandedAppend(s.trace, Devices.StepsAt(kinds, s.now), l);
  }

  lemma OtherForwarderDisturbsNone(c: Config, s: State, a: Action, l: LinkId)
    requires ValidConfig(c) && Sane(c, s) && Enabled(c, s, a) && a.RunForwarder? && FlightsMatch(s) && a.link != l
    ensures LinkUndisturbed(s, Perform(c, s, a), l)
  {
    LandingIsOfLink(c, s, a);
    hide ValidConfig, Sane, Enabled, Perform, FlightsMatch, LandedFrom, SameFlights, OnlyLands;
    ArrivalLanding(c, s, a, l);
    ArrivalLands(c, s, a);
    LandsElsewhere(s, Perform(c, s, a), a.link, a.record, l);
    assert LandedFrom(s.trace, l) + [] == LandedFrom(s.trace, l);
  }

  lemma QuietDisturbsNone(c: Config, s: State, a: Action, l: LinkId)
    requires ValidConfig(c) && Sane(c, s) && Enabled(c, s, a) && l in s.links
    requires a.Tick? || a.AppRead? || a.LinkChange? || a.NodeChange?
    ensures LinkUndisturbed(s, Perform(c, s, a), l)
  {
    hide ValidConfig, Sane, Enabled, Perform, LandedFrom, Flights, SameFlights, Adds, NoFlightChanges, LinkKept;
    var kinds := QuietAdds(c, s, a);
    AddsNoLandings(s, Perform(c, s, a), kinds, l);
    QuietKeeps(c, s, a, l);
    NoChangesKeepFlights(s, Perform(c, s, a), l);
  }

  lemma OffersDisturbNone(c: Config, s: State, a: Action, l: LinkId)
    requires ValidConfig(c) && Sane(c, s) && Enabled(c, s, a) && a.RunNodeTask?
    ensures LinkUndisturbed(s, Perform(c, s, a), l)
  {
    hide ValidConfig, Sane, Enabled, Perform, LandedFrom, SameFlights;
    OffersAddNothing(c, s, a);
    SameLogKeepsFlights(s, Perform(c, s, a), l);
  }

  lemma OtherActionDisturbsNone(c: Config, s: State, a: Action, l: LinkId)
    requires ValidConfig(c) && Sane(c, s) && TasksWait(c, s) && Enabled(c, s, a) && l in s.links
    requires FlightsMatch(s) && IdsUsed(s.log, s.used)
    requires !SendsNow(c, s, a, l) && !(a.RunForwarder? && a.link == l)
    ensures LinkUndisturbed(s, Perform(c, s, a), l)
  {
    hide ValidConfig, Sane, TasksWait, Enabled, Perform, FlightsMatch, IdsUsed, LandedFrom, SameFlights, WillSend,
      LinkActionOutcome;
    if OfLinkTask(a) {
      TaskDisturbsNone(c, s, a, l);
    } else if a.Create? {
      CreateDisturbsNone(c, s, a, l);
    } else if a.RunForwarder? {
      OtherForwarderDisturbsNone(c, s, a, l);
    } else if a.RunNodeTask? {
      OffersDisturbNone(c, s, a, l);
    } else {
      QuietDisturbsNone(c, s, a, l);
    }
  }

  // ----- The order on a link, kept by one action -----

  /** All of `sent` but the first `landed` is on the link, and those came off it, in the same order. */
  ghost predicate FliesInOrder(c: Config, s: State, l: LinkId, sent: seq<Departure>, landed: nat)
    requires l in c.links
  {
    InFlightOrder(c, s, l, sent, landed) && LandedInOrder(s, l, sent, landed)
  }

  lemma UndisturbedFliesOn(c: Config, s: State, s1: State, l: LinkId, sent: seq<Departure>, landed: nat)
    requires l in c.links && FliesInOrder(c, s, l, sent, landed) && LinkUndisturbed(s, s1, l)
    ensures FliesInOrder(c, s1, l, sent, landed)
  {
    FlightOrderKept(c, s, s1, l, sent, landed);
    hide InFlightOrder, SameFlights, LandedFrom, DepartureIds;
  }

  lemma OutcomeGoes(c: Config, s: State, a: Action, s1: State)
    requires ValidConfig(c) && Sane(c, s) && Enabled(c, s, a) && OfLinkTask(a) && LinkActionOutcome(c, s, a, s1, true)
    ensures a.link in s.links && a.link in c.links && c.links[a.link].bandwidthBps > 0
    ensures Tickets(s.links[a.link]) != [] && Tickets(s.links[a.link])[0].record < |s.log|
    ensures Goes(c, s, s1, a.link, Tickets(s.links[a.link])[0])
  {
    TaskLinkKnown(c, s, a);
    hide ValidConfig, Sane, Enabled, Tickets, Goes;
  }

  lemma LandedStays(s: State, s1: State, l: LinkId, sent: seq<Departure>, d: Departure, landed: nat)
    requires LandedInOrder(s, l, sent, landed) && LandedFrom(s1.trace, l) == LandedFrom(s.trace, l)
    ensures LandedInOrder(s1, l, sent + [d], landed)
  {
    hide LandedFrom;
    assert (sent + [d])[..landed] == sent[..landed];
  }

  lemma SendFliesOn(c: Config, s: State, a: Action, l: LinkId, sent: seq<Departure>, d: Departure, landed: nat)
    requires ValidConfig(c) && Sane(c, s) && TasksWait(c, s) && Enabled(c, s, a) && l in s.links && l in c.links
    requires SendsNow(c, s, a, l) && Leaves(c, s, a, d) && FliesInOrder(c, s, l, sent, landed)
    ensures FliesInOrder(c, Perform(c, s, a), l, sent + [d], landed)
  {
    hide ValidConfig, Sane, TasksWait, Enabled, Perform, LandedFrom, InFlightOrder, Tickets, LandedInOrder, WillSend,
      Goes, LinkActionOutcome;
    var s1 := Perform(c, s, a);
    LinkTaskOutcome(c, s, a);
    OutcomeGoes(c, s, a, s1);
    FlightOrderGoes(c, s, s1, l, Tickets(s.links[l])[0], sent, d, landed);
    TaskLandsNone(c, s, a, s1, true, l);
    LandedStays(s, s1, l, sent, d, landed);
  }

  lemma OneMoreLanded(s: State, s1: State, l: LinkId, sent: seq<Departure>, landed: nat, id: PacketId)
    requires LandedInOrder(s, l, sent, landed) && landed < |sent| && sent[landed].packet.id == id
    requires LandedFrom(s1.trace, l) == LandedFrom(s.trace, l) + [id]
    ensures LandedInOrder(s1, l, sent, landed + 1)
  {
    hide LandedFrom;
    assert DepartureIds(sent[..landed + 1]) == DepartureIds(sent[..landed]) + [id];
  }

  lemma OldestOnLink(c: Config, s: State, l: LinkId, sent: seq<Departure>, landed: nat)
    requires l in c.links && InFlightOrder(c, s, l, sent, landed) && Describes(s.log, sent) && landed < |sent|
    ensures sent[landed].ticket.record < |s.log| && OnLink(s.log[sent[landed].ticket.record], l)
    ensures s.log[sent[landed].ticket.record].packet == sent[landed].packet
  {
  }

  lemma LandingFliesOn(c: Config, s: State, a: Action, l: LinkId, sent: seq<Departure>, landed: nat, extra: Time)
    requires ValidConfig(c) && Sane(c, s) && Enabled(c, s, a) && l in s.links && l in c.links
    requires a.RunForwarder? && a.link == l && FlightsMatch(s) && Describes(s.log, sent)
    requires FliesInOrder(c, s, l, sent, landed) && AlikeAndSpaced(sent, extra)
    ensures landed < |sent| && FliesInOrder(c, Perform(c, s, a), l, sent, landed + 1)
  {
    hide ValidConfig, Sane, Enabled, Perform, LandedFrom, InFlightOrder, FlightsMatch, AlikeAndSpaced, OnlyLands,
      FirstOff, Describes, LandedInOrder;
    LandingIsOfLink(c, s, a);
    FirstOffIsOldest(c, s, l, a.record, sent, landed, extra);
    OldestOnLink(c, s, l, sent, landed);
    ArrivalLands(c, s, a);
    FlightOrderLands(c, s, Perform(c, s, a), l, sent, landed, extra);
    ArrivalLanding(c, s, a, l);
    OneMoreLanded(s, Perform(c, s, a), l, sent, landed, sent[landed].packet.id);
  }

  lemma ActionFliesOn(c: Config, s: State, a: Action, l: LinkId, sent: seq<Departure>, sent1: seq<Departure>,
                      landed: nat, extra: Time)
    returns (landed1: nat)
    requires ValidConfig(c) && Sane(c, s) && TasksWait(c, s) && Enabled(c, s, a) && l in s.links && l in c.links
    requires FlightsMatch(s) && IdsUsed(s.log, s.used) && Describes(s.log, sent)
    requires FliesInOrder(c, s, l, sent, landed) && AlikeAndSpaced(sent, extra)
    requires if SendsNow(c, s, a, l) then |sent1| == |sent| + 1 && sent1[..|sent|] == sent && Leaves(c, s, a, sent1[|sent|])
             else sent1 == sent
    ensures FliesInOrder(c, Perform(c, s, a), l, sent1, landed1)
  {
    hide ValidConfig, Sane, TasksWait, Enabled, Perform, FlightsMatch, IdsUsed, WillSend, FliesInOrder, AlikeAndSpaced,
      Describes, Leaves, LinkUndisturbed;
    landed1 := landed;
    if SendsNow(c, s, a, l) {
      assert sent1 == sent + [sent1[|sent|]];
      SendFliesOn(c, s, a, l, sent, sent1[|sent|], landed);
    } else if a.RunForwarder? && a.link == l {
      LandingFliesOn(c, s, a, l, sent, landed, extra);
      landed1 := landed + 1;
    } else {
      OtherActionDisturbsNone(c, s, a, l);
      UndisturbedFliesOn(c, s, Perform(c, s, a), l, sent, landed);
    }
  }

  // ----- No packet is empty -----

  predicate NoneEmpty(log: seq<Record>) {
    forall i :: 0 <= i < |log| ==> log[i].packet.size > 0
  }

  /** Every record is of one of the packets before, or of one as large as `size`. */
  predicate SizedLike(log: seq<Record>, log1: seq<Record>, size: nat) {
    && |log| <= |log1|
    && (forall i :: 0 <= i < |log| ==> log1[i].packet == log[i].packet)
    && (forall i :: |log| <= i < |log1| ==> log1[i].packet.size == size)
  }

  lemma EnqueueSizes(s: State, i: nat)
    requires i < |s.log| && s.log[i].node in s.nodes
    ensures SizedLike(s.log, EnqueueOutbound(s, i).log, s.log[i].packet.size)
    ensures |EnqueueOutbound(s, i).log| == |s.log| && EnqueueOutbound(s, i).nodes.Keys == s.nodes.Keys
  {
  }

  lemma PlaceSizes(c: Config, s: State, i: nat, roll: Roll)
    requires ValidConfig(c) && i < |s.log| && s.log[i].node in s.nodes && s.log[i].node in c.nodes
    ensures SizedLike(s.log, Place(c, s, i, roll).log, s.log[i].packet.size)
  {
    hide ValidConfig, IsEndpoint, EnqueueOutbound;
    EnqueueSizes(s, i);
    if roll.Duplicate? {
      EnqueueSizes(ArriveDuplicate(EnqueueOutbound(s, i), s.log[i].node, s.log[i].packet.(id := roll.id)), |s.log|);
    }
  }

  lemma ForwardSizes(c: Config, s: State, n: NodeId, p: Packet, roll: Roll, origin: Option<nat>)
    requires ValidConfig(c) && n in s.nodes && n in c.nodes && (origin.Some? ==> origin.value < |s.log|)
    ensures SizedLike(s.log, Forward(c, s, n, p, roll, origin).log, p.size)
  {
    hide ValidConfig, Place;
    if NodeUp(s, n) {
      PlaceSizes(c, Arrive(s, n, p, origin), |s.log|, roll);
    }
  }

  lemma SizedAreNonEmpty(log: seq<Record>, log1: seq<Record>, size: nat)
    requires NoneEmpty(log) && SizedLike(log, log1, size) && size > 0
    ensures NoneEmpty(log1)
  {
  }

  lemma CreateSizes(c: Config, s: State, a: Action)
    requires ValidConfig(c) && Sane(c, s) && Enabled(c, s, a) && a.Create? && NoneEmpty(s.log)
    ensures NoneEmpty(Perform(c, s, a).log)
  {
    hide ValidConfig, Sane, Enabled, Perform, Forward, NoneEmpty, SizedLike;
    CreateIs(c, s, a);
    ForwardSizes(c, WithCreated(s, a), a.node, NewPacket(s, a), a.roll, None);
    SizedAreNonEmpty(s.log, Perform(c, s, a).log, a.size);
  }

  lemma DeliverSizes(c: Config, s: State, l: LinkId, i: nat, roll: Roll)
    requires ValidConfig(c) && l in c.links && l in s.links && TargetNode(c, l) in s.nodes && TargetNode(c, l) in c.nodes
    requires i < |s.log| && s.log[i].fate.InTransit?
    ensures SizedLike(s.log, Deliver(c, s, l, i, roll).log, s.log[i].packet.size)
  {
    hide ValidConfig, Forward, TargetNode;
    if !After(s.links[l].lastDown, s.log[i].fate.sent) {
      ForwardSizes(c, s, TargetNode(c, l), s.log[i].packet, roll, Some(i));
    }
  }

  lemma ArrivalSizes(c: Config, s: State, a: Action)
    requires ValidConfig(c) && Sane(c, s) && Enabled(c, s, a) && a.RunForwarder? && NoneEmpty(s.log)
    ensures NoneEmpty(Perform(c, s, a).log)
  {
    ArrivalIs(c, s, a);
    assert s.log[a.record].packet.size > 0;
    hide ValidConfig, Sane, Enabled, Perform, Deliver, NoneEmpty, SizedLike, TargetNode;
    DeliverSizes(c, WithRolled(s, a), a.link, a.record, a.roll);
    SizedAreNonEmpty(s.log, Perform(c, s, a).log, s.log[a.record].packet.size);
  }

  lemma QuietSizes(c: Config, s: State, a: Action)
    requires ValidConfig(c) && Sane(c, s) && Enabled(c, s, a) && NoneEmpty(s.log)
    requires a.Tick? || a.AppRead? || a.LinkChange? || a.NodeChange?
    ensures NoneEmpty(Perform(c, s, a).log)
  {
    hide ValidConfig, Sane;
  }

  lemma TaskSizes(c: Config, s: State, a: Action, s1: State, goes: bool)
    requires ValidConfig(c) && Sane(c, s) && Enabled(c, s, a) && OfLinkTask(a) && LinkActionOutcome(c, s, a, s1, goes)
    requires NoneEmpty(s.log)
    ensures NoneEmpty(s1.log)
  {
    TaskLinkKnown(c, s, a);
    hide ValidConfig, Sane, Enabled, Tickets, Outcome;
    OutcomeKeepsPackets(c, s, s1, a.link, Tickets(s.links[a.link])[0], goes);
  }

  lemma ActionSizes(c: Config, s: State, a: Action)
    requires ValidConfig(c) && Sane(c, s) && TasksWait(c, s) && Enabled(c, s, a) && NoneEmpty(s.log)
    ensures NoneEmpty(Perform(c, s, a).log)
  {
    hide ValidConfig, Sane, TasksWait, Enabled, Perform, NoneEmpty, LinkActionOutcome;
    if OfLinkTask(a) {
      LinkTaskOutcome(c, s, a);
      TaskSizes(c, s, a, Perform(c, s, a), WillSend(c, s, a));
    } else if a.Create? {
      CreateSizes(c, s, a);
    } else if a.RunForwarder? {
      ArrivalSizes(c, s, a);
    } else if a.RunNodeTask? {
      OffersAddNothing(c, s, a);
    } else {
      QuietSizes(c, s, a);
    }
  }

  lemma {:induction false} RunsHaveNoEmptyPackets(c: Config, run: seq<Action>)
    requires ValidConfig(c) && IsRun(c, run)
    ensures NoneEmpty(StateAfter(c, run).value.log)
  {
    hide ValidConfig, Sane, TasksWait, Enabled, Perform, AtRest;
    if run != [] {
      RunSnoc(c, run);
      hide StateAfter, NoneEmpty;
      RunsHaveNoEmptyPackets(c, run[..|run| - 1]);
      RunsAreSane(c, run[..|run| - 1]);
      ActionSizes(c, StateAfter(c, run[..|run| - 1]).value, run[|run| - 1]);
    }
  }

  // ----- Sends, over whole runs -----

  predicate SpacedSends(sent: seq<Departure>) {
    forall j, k :: 0 <= j < k < |sent| ==> sent[j].time < sent[k].time
  }

  lemma SendsAreSpaced(log: seq<Record>, sent: seq<Departure>, bandwidthBps: nat)
    requires bandwidthBps > 0 && NoneEmpty(log) && Describes(log, sent)
    requires Pacing.PacerAfter(PacedOf(sent), bandwidthBps).Some?
    ensures SpacedSends(sent)
  {
    hide Pacing.PacerAfter;
    var paced := PacedOf(sent);
    Deliveries.PacedSendsAreSpaced(paced, bandwidthBps);
    forall j, k | 0 <= j < k < |sent|
      ensures sent[j].time < sent[k].time
    {
      assert paced[j].time < paced[k].time;
    }
  }

  lemma OrderedSendsAreSpaced(c: Config, s: State, l: LinkId, offers: seq<Ticket>, done: nat, sent: seq<Departure>)
    requires l in c.links && c.links[l].bandwidthBps > 0 && l in s.links && Ordered(c, s, l, offers, done, sent)
    requires NoneEmpty(s.log)
    ensures SpacedSends(sent) && Describes(s.log, sent) && TransitsOver(s.trace, l) == StepsOf(sent, l)
    ensures InQueueOrder(offers, done, sent)
  {
    hide Pacing.PacerAfter, NoneEmpty, Describes, Tickets, SpacedSends, InQueueOrder, TransitsOver;
    SendsAreSpaced(s.log, sent, c.links[l].bandwidthBps);
  }

  /** `sends` are of the offers at `places`, in queue order and one after the other. */
  ghost predicate SendsOfOffers(log: seq<Record>, offers: seq<Ticket>, places: seq<nat>, sends: seq<Step>) {
    && |places| == |sends|
    && (forall k :: 0 <= k < |sends| ==>
          && places[k] < |offers| && offers[places[k]].record < |log| && sends[k].kind.PacketInTransit?
          && var r := log[offers[places[k]].record];
             sends[k].kind.packet == r.packet.id && sends[k].kind.node == r.node)
    && (forall j, k :: 0 <= j < k < |sends| ==> places[j] < places[k] && sends[j].time < sends[k].time)
  }

  lemma DeparturesAreOfOffers(log: seq<Record>, l: LinkId, offers: seq<Ticket>, done: nat, sent: seq<Departure>)
    returns (places: seq<nat>)
    requires InQueueOrder(offers, done, sent) && Describes(log, sent) && SpacedSends(sent)
    ensures SendsOfOffers(log, offers, places, StepsOf(sent, l))
  {
    places := seq(|sent|, k requires 0 <= k < |sent| => sent[k].place);
  }

  /**
   * In every run, what a link puts onto itself is a subsequence of what it was offered, in the order
   * of its queue, and the sends are at strictly increasing times.
   */
  lemma SendsInQueueOrder(c: Config, run: seq<Action>, l: LinkId) returns (places: seq<nat>)
    requires ValidConfig(c) && IsRun(c, run) && l in c.links
    ensures var s := StateAfter(c, run).value;
      SendsOfOffers(s.log, OffersTo(c, run, l), places, TransitsOver(s.trace, l))
  {
    hide ValidConfig, StateAfter, Ordered, NoneEmpty, SendsOfOffers, InQueueOrder, Describes, SpacedSends, StepsOf,
      TransitsOver;
    var s := StateAfter(c, run).value;
    var done, sent := RunsAreOrdered(c, run, l);
    RunsHaveNoEmptyPackets(c, run);
    OrderedSendsAreSpaced(c, s, l, OffersTo(c, run, l), done, sent);
    places := DeparturesAreOfOffers(s.log, l, OffersTo(c, run, l), done, sent);
  }

  // ----- Landings, over whole runs -----

  /** All offers are delayed alike. */
  predicate DelayedBy(offers: seq<Ticket>, extra: Time) {
    forall t :: t in offers ==> t.extraDelay == extra
  }

  lemma OrderedAreAlike(c: Config, s: State, l: LinkId, offers: seq<Ticket>, done: nat, sent: seq<Departure>, extra: Time)
    requires l in c.links && c.links[l].bandwidthBps > 0 && l in s.links && Ordered(c, s, l, offers, done, sent)
    requires NoneEmpty(s.log) && DelayedBy(offers, extra)
    ensures AlikeAndSpaced(sent, extra) && Describes(s.log, sent)
  {
    hide Ordered, NoneEmpty;
    OrderedSendsAreSpaced(c, s, l, offers, done, sent);
  }

  lemma StartFliesInOrder(c: Config, l: LinkId)
    requires l in c.links
    ensures FliesInOrder(c, Start(c), l, [], 0)
  {
    assert LandedFrom([], l) == [];
    assert DepartureIds([]) == [];
  }

  lemma FewerDelayedAlike(offers: seq<Ticket>, more: seq<Ticket>, extra: Time)
    requires DelayedBy(offers + more, extra)
    ensures DelayedBy(offers, extra)
  {
    forall t | t in offers
      ensures t.extraDelay == extra
    {
      assert t in offers + more;
    }
  }

  /** One action more, for `RunsFlyInOrder`. */
  lemma NextFliesInOrder(c: Config, run: seq<Action>, a: Action, l: LinkId, offers: seq<Ticket>, done: nat,
                         sent: seq<Departure>, landed: nat, extra: Time)
    returns (done1: nat, sent1: seq<Departure>, landed1: nat)
    requires ValidConfig(c) && IsRun(c, run) && l in c.links && c.links[l].bandwidthBps > 0
    requires var s := StateAfter(c, run).value;
      && Sane(c, s) && Enabled(c, s, a) && l in s.links
      && Ordered(c, s, l, offers, done, sent) && FliesInOrder(c, s, l, sent, landed)
    requires DelayedBy(offers, extra)
    ensures var s := StateAfter(c, run).value;
      && l in Perform(c, s, a).links
      && Ordered(c, Perform(c, s, a), l, offers + NewTickets(c, s, a, l), done1, sent1)
      && FliesInOrder(c, Perform(c, s, a), l, sent1, landed1)
  {
    hide ValidConfig, Sane, TasksWait, Enabled, Perform, Ordered, AtRest, NewTickets, StateAfter, FliesInOrder, Describes,
      FlightsMatch, IdsUsed, NoneEmpty, AlikeAndSpaced, DelayedBy, SendsNow, Leaves;
    var s := StateAfter(c, run).value;
    RunsAreSane(c, run);
    RunsHaveNoEmptyPackets(c, run);
    FlightsInRuns(c, run);
    OrderedAreAlike(c, s, l, offers, done, sent, extra);
    done1, sent1 := ActionOrdered(c, s, a, l, offers, done, sent);
    landed1 := ActionFliesOn(c, s, a, l, sent, sent1, landed, extra);
  }

  lemma {:induction false} RunsFlyInOrder(c: Config, run: seq<Action>, l: LinkId, extra: Time)
    returns (done: nat, sent: seq<Departure>, landed: nat)
    requires ValidConfig(c) && IsRun(c, run) && l in c.links && DelayedBy(OffersTo(c, run, l), extra)
    ensures c.links[l].bandwidthBps > 0 && l in StateAfter(c, run).value.links
    ensures Ordered(c, StateAfter(c, run).value, l, OffersTo(c, run, l), done, sent)
    ensures FliesInOrder(c, StateAfter(c, run).value, l, sent, landed)
  {
    BandwidthKnown(c, l);
    hide ValidConfig, Sane, Enabled, Perform, Ordered, NewTickets, FliesInOrder, DelayedBy;
    if run == [] {
      StartOrdered(c, l);
      StartFliesInOrder(c, l);
      done, sent, landed := 0, [], 0;
    } else {
      RunSnoc(c, run);
      hide StateAfter;
      var init, a := run[..|run| - 1], run[|run| - 1];
      LinksStay(c, init, l);
      FewerDelayedAlike(OffersTo(c, init, l), NewTickets(c, StateAfter(c, init).value, a, l), extra);
      done, sent, landed := RunsFlyInOrder(c, init, l, extra);
      done, sent, landed := NextFliesInOrder(c, init, a, l, OffersTo(c, init, l), done, sent, landed, extra);
    }
  }

  lemma LandedIsPrefix(s: State, l: LinkId, sent: seq<Departure>, landed: nat)
    requires LandedInOrder(s, l, sent, landed)
    ensures LandedFrom(s.trace, l) <= IdsOf(StepsOf(sent, l))
  {
    hide LandedFrom;
  }

  /**
   * In every run in which a link delays all that it is offered alike, packets come off it (into the
   * node at its end, to be dropped there, or lost) in the order in which they went onto it.
   */
  lemma LandingsInSendOrder(c: Config, run: seq<Action>, l: LinkId, extra: Time)
    requires ValidConfig(c) && IsRun(c, run) && l in c.links && DelayedBy(OffersTo(c, run, l), extra)
    ensures var s := StateAfter(c, run).value;
      LandedFrom(s.trace, l) <= IdsOf(TransitsOver(s.trace, l))
  {
    hide ValidConfig, StateAfter, NoneEmpty, LandedFrom, InFlightOrder, Ordered, TransitsOver, DelayedBy,
      InQueueOrder, Describes, SpacedSends, LandedInOrder;
    var s := StateAfter(c, run).value;
    var done, sent, landed := RunsFlyInOrder(c, run, l, extra);
    RunsHaveNoEmptyPackets(c, run);
    OrderedSendsAreSpaced(c, s, l, OffersTo(c, run, l), done, sent);
    LandedIsPrefix(s, l, sent, landed);
  }

  /** A link without an extra delay delays alike whatever any run offers it. */
  lemma {:induction false} NoExtraDelay(c: Config, run: seq<Action>, l: LinkId)
    requires ValidConfig(c) && IsRun(c, run) && l in c.links && c.links[l].extraDelay == 0
    ensures DelayedBy(OffersTo(c, run, l), 0)
  {
    hide ValidConfig, Sane, Enabled, Perform, StateAfter, NewTickets;
    if run != [] {
      RunSnoc(c, run);
      var init, a := run[..|run| - 1], run[|run| - 1];
      LinksStay(c, init, l);
      NoExtraDelay(c, init, l);
      if a.RunNodeTask? {
        OffersKeep(c, StateAfter(c, init).value, a, l);
      } else {
        NothingOffered(c, StateAfter(c, init).value, a, l);
      }
    }
  }

  /** So a link without an extra delay is first in, first out, in every run. */
  lemma ZeroExtraDelayIsFifo(c: Config, run: seq<Action>, l: LinkId)
    requires ValidConfig(c) && IsRun(c, run) && l in c.links && c.links[l].extraDelay == 0
    ensures var s := StateAfter(c, run).value;
      LandedFrom(s.trace, l) <= IdsOf(TransitsOver(s.trace, l))
  {
    hide ValidConfig, StateAfter, LandedFrom, TransitsOver, IdsOf, DelayedBy;
    NoExtraDelay(c, run, l);
    LandingsInSendOrder(c, run, l, 0);
  }

  // ----- The queue at the far end -----

  lemma LandingLeavesQueue(s: State, s1: State, l: LinkId, i: nat)
    requires l in s.links && i < |s.log| && Holds(LinkQueue(l), s.log[i]) && OnlyLands(s, s1, l, i)
    ensures ContentsOf(s1.log, LinkQueue(l)) + multiset{ItemOf(s.log[i])} == ContentsOf(s.log, LinkQueue(l))
  {
    var fate := FateAtEnd(s, l, i);
    FateMoves(s.log, i, fate, LinkQueue(l));
    var log := s.log[i := s.log[i].(fate := fate)];
    NothingJoins(log, s1.log[|s.log|..], LinkQueue(l));
    assert s1.log == log + s1.log[|s.log|..];
    hide ContentsOf;
  }

  lemma ArrivesOnTime(c: Config, s: State, a: Action)
    requires ValidConfig(c) && Sane(c, s) && Enabled(c, s, a) && a.RunForwarder? && ForwardInTime(s.log, a.link)
    ensures a.record < |s.log| && ItemOf(s.log[a.record]).Arrival() <= s.now
  {
    hide ValidConfig, Sane;
  }

  lemma ForwarderTakesFirst(c: Config, s: State, a: Action)
    requires ValidConfig(c) && Sane(c, s) && Enabled(c, s, a) && a.RunForwarder? && ForwardInTime(s.log, a.link)
    ensures a.record < |s.log| && Holds(LinkQueue(a.link), s.log[a.record])
    ensures InboundQueues.IsFirst(ContentsOf(s.log, LinkQueue(a.link)), ItemOf(s.log[a.record]))
  {
    LandingIsOfLink(c, s, a);
    hide ValidConfig, Sane, Enabled, ContentsOf, FirstOff, ForwardInTime;
    FirstOffIsFirst(s, a.link, a.record);
  }

  lemma ForwarderLeavesQueue(c: Config, s: State, a: Action)
    requires ValidConfig(c) && Sane(c, s) && Enabled(c, s, a) && a.RunForwarder?
    ensures a.record < |s.log|
    ensures ContentsOf(Perform(c, s, a).log, LinkQueue(a.link)) + multiset{ItemOf(s.log[a.record])}
         == ContentsOf(s.log, LinkQueue(a.link))
  {
    LandingIsOfLink(c, s, a);
    hide ValidConfig, Sane, Enabled, Perform, ContentsOf, FirstOff, OnlyLands, ItemOf;
    ArrivalLands(c, s, a);
    LandingLeavesQueue(s, Perform(c, s, a), a.link, a.record);
  }

  lemma RunForwardInTime(c: Config, run: seq<Action>, l: LinkId)
    requires ValidConfig(c) && IsRun(c, run)
    ensures ForwardInTime(StateAfter(c, run).value.log, l)
  {
    hide ValidConfig, StateAfter, FlightsMatch, IdsUsed;
    FlightsInRuns(c, run);
  }

  /**
   * In every run, the forwarder of a link takes what the link's queue pops: an item that its heap
   * puts first, whose time has come; and just that item leaves the queue.
   */
  lemma ForwarderPops(c: Config, run: seq<Action>, a: Action)
    requires ValidConfig(c) && IsRun(c, run) && a.RunForwarder?
    requires Sane(c, StateAfter(c, run).value) && Enabled(c, StateAfter(c, run).value, a)
    ensures var s := StateAfter(c, run).value;
      && a.record < |s.log|
      && var queue, x := ContentsOf(s.log, LinkQueue(a.link)), ItemOf(s.log[a.record]);
         && InboundQueues.IsFirst(queue, x) && x.Arrival() <= s.now
         && ContentsOf(Perform(c, s, a).log, LinkQueue(a.link)) == queue - multiset{x}
  {
    hide ValidConfig, Sane, Enabled, Perform, StateAfter, ContentsOf, ForwardInTime, ItemOf, InboundQueues.IsFirst;
    var s := StateAfter(c, run).value;
    RunForwardInTime(c, run, a.link);
    ForwarderTakesFirst(c, s, a);
    ArrivesOnTime(c, s, a);
    ForwarderLeavesQueue(c, s, a);
  }

  /** The queue was given what the link sent, in that order, each packet with its delay. */
  ghost predicate FedBy(c: Config, l: LinkId, offers: seq<Ticket>, places: seq<nat>, sends: seq<Step>,
                        pushed: seq<InboundQueues.Item>)
    requires l in c.links
  {
    && |places| == |sends| == |pushed|
    && (forall k :: 0 <= k < |sends| ==>
          && places[k] < |offers| && sends[k].kind.PacketInTransit?
          && pushed[k].packet == sends[k].kind.packet && pushed[k].sent == sends[k].time
          && pushed[k].delay == c.links[l].delay + offers[places[k]].extraDelay)
  }

  lemma FedAlike(c: Config, l: LinkId, log: seq<Record>, offers: seq<Ticket>, places: seq<nat>, sends: seq<Step>,
                 pushed: seq<InboundQueues.Item>, extra: Time)
    requires l in c.links && SendsOfOffers(log, offers, places, sends) && FedBy(c, l, offers, places, sends, pushed)
    requires DelayedBy(offers, extra)
    ensures Deliveries.Spaced(pushed) && forall x :: x in pushed ==> x.delay == c.links[l].delay + extra
  {
    forall x | x in pushed
      ensures x.delay == c.links[l].delay + extra
    {
      var k: nat :| k < |pushed| && pushed[k] == x;
      assert offers[places[k]] in offers;
    }
  }

  /**
   * A link without an extra delay, in any run and under any polls of its queue: what was delivered
   * so far is the beginning of what the link sent, and no poll that comes back without a result
   * leaves a packet behind whose time has come.
   */
  lemma ZeroExtraDelayIsPunctual(c: Config, run: seq<Action>, l: LinkId, places: seq<nat>,
                                 flows: seq<Deliveries.Flow>, events: seq<Deliveries.Event>)
    requires ValidConfig(c) && IsRun(c, run) && l in c.links && c.links[l].extraDelay == 0
    requires var s := StateAfter(c, run).value;
      && SendsOfOffers(s.log, OffersTo(c, run, l), places, TransitsOver(s.trace, l))
      && Deliveries.History(flows, events)
      && FedBy(c, l, OffersTo(c, run, l), places, TransitsOver(s.trace, l), flows[|events|].pushed)
    ensures Deliveries.Fifo(flows[|events|])
    ensures Deliveries.EndsPending(events) ==> !Deliveries.LeavesDue(flows[|events|].poll, flows[|events|].now)
  {
    hide ValidConfig, StateAfter, SendsOfOffers, TransitsOver, FedBy, DelayedBy, Deliveries.Next, Deliveries.Fifo,
      Deliveries.LeavesDue, Deliveries.Steady, Deliveries.Spaced;
    var s := StateAfter(c, run).value;
    var delay := c.links[l].delay;
    NoExtraDelay(c, run, l);
    FedAlike(c, l, s.log, OffersTo(c, run, l), places, TransitsOver(s.trace, l), flows[|events|].pushed, 0);
    Deliveries.SteadyAsPushed(flows, events, delay);
    Deliveries.SteadyLinksAreFifo(flows, events, delay);
    if Deliveries.EndsPending(events) {
      Deliveries.SteadyLinksArePunctual(flows, events, delay);
    }
  }
}
