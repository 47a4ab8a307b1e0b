/** The order of packets on a link, in any run: offered, sent, and off the link at its far end. */
module LinkOrder {
  import opened Types
  import opened Network
  import opened Status
  import opened Simulator
  import opened LinkTasks
  import opened Sanity
  import opened LinkMoves
  import opened AgreementRuns
  import opened RunStates
  import Pacing
  import Devices

  // ----- What the trace says -----

  /** The steps that put packets on the link, in order. */
  function TransitsOver(trace: seq<Step>, l: LinkId): (steps: seq<Step>)
    ensures forall i :: 0 <= i < |steps| ==> steps[i].kind.PacketInTransit? && steps[i].kind.link == l
  {
    if trace == [] then []
    else
      var last := trace[|trace| - 1];
      TransitsOver(trace[..|trace| - 1], l) + if last.kind.PacketInTransit? && last.kind.link == l then [last] else []
  }

  lemma {:induction false} TransitsAppend(trace: seq<Step>, more: seq<Step>, l: LinkId)
    ensures TransitsOver(trace + more, l) == TransitsOver(trace, l) + TransitsOver(more, l)
  {
    if more == [] {
      assert trace + more == trace;
    } else {
      assert (trace + more)[..|trace + more| - 1] == trace + more[..|more| - 1];
      TransitsAppend(trace, more[..|more| - 1], l);
    }
  }

  lemma {:induction false} NoTransits(more: seq<Step>, l: LinkId)
    requires forall i :: 0 <= i < |more| ==> !(more[i].kind.PacketInTransit? && more[i].kind.link == l)
    ensures TransitsOver(more, l) == []
  {
    if more != [] {
      NoTransits(more[..|more| - 1], l);
    }
  }

  lemma OneTransit(step: Step, l: LinkId)
    requires step.kind.PacketInTransit? && step.kind.link == l
    ensures TransitsOver([step], l) == [step]
  {
    assert TransitsOver([step][..0], l) == [];
  }

  // ----- What a link is offered, and what it sends -----

  /** The offers that an action makes to the link. */
  ghost function NewTickets(c: Config, s: State, a: Action, l: LinkId): seq<Ticket>
    requires ValidConfig(c) && Sane(c, s) && Enabled(c, s, a) && l in s.links
  {
    if a.RunNodeTask? then
      OffersAddNothing(c, s, a);
      var queue := Perform(c, s, a).links[l].queue;
      if |s.links[l].queue| <= |queue| then TicketsOf(queue[|s.links[l].queue|..]) else []
    else []
  }

  lemma LinksStay(c: Config, run: seq<Action>, l: LinkId)
    requires ValidConfig(c) && IsRun(c, run) && l in c.links
    ensures l in StateAfter(c, run).value.links && Sane(c, StateAfter(c, run).value)
  {
    hide ValidConfig, TasksWait, StateAfter, AtRest;
    RunsAreSane(c, run);
    KnownToBoth(c, StateAfter(c, run).value);
  }

  /** All the offers that a run makes to the link, in the order in which they join its queue. */
  ghost function OffersTo(c: Config, run: seq<Action>, l: LinkId): seq<Ticket>
    requires ValidConfig(c) && IsRun(c, run) && l in c.links
  {
    if run == [] then []
    else
      RunSnoc(c, run);
      LinksStay(c, run[..|run| - 1], l);
      OffersTo(c, run[..|run| - 1], l) + NewTickets(c, StateAfter(c, run[..|run| - 1]).value, run[|run| - 1], l)
  }

  /** One send: which of the offers it was, when, and of what packet. */
  datatype Departure = Departure(place: nat, ticket: Ticket, time: Time, packet: Packet, node: NodeId)

  function StepOf(d: Departure, l: LinkId): Step {
    Step(d.time, PacketInTransit(d.packet.id, d.node, l))
  }

  function StepsOf(sent: seq<Departure>, l: LinkId): seq<Step> {
    seq(|sent|, k requires 0 <= k < |sent| => StepOf(sent[k], l))
  }

  function PacedOf(sent: seq<Departure>): seq<Pacing.Packet> {
    seq(|sent|, k requires 0 <= k < |sent| => Pacing.Packet(sent[k].time, sent[k].packet.size))
  }

  /** Each send is of one of the first `done` offers, and later sends are of later offers. */
  ghost predicate InQueueOrder(offers: seq<Ticket>, done: nat, sent: seq<Departure>) {
    && done <= |offers|
    && (forall k :: 0 <= k < |sent| ==> sent[k].place < done && offers[sent[k].place] == sent[k].ticket)
    && (forall j, k :: 0 <= j < k < |sent| ==> sent[j].place < sent[k].place)
  }

  ghost predicate Describes(log: seq<Record>, sent: seq<Departure>) {
    forall k :: 0 <= k < |sent| ==>
      && sent[k].ticket.record < |log|
      && log[sent[k].ticket.record].packet == sent[k].packet && log[sent[k].ticket.record].node == sent[k].node
  }

  /** The link has dealt with the first `done` of its offers; `sent` are its sends, all allowed by its pacer. */
  ghost predicate Ordered(c: Config, s: State, l: LinkId, offers: seq<Ticket>, done: nat, sent: seq<Departure>)
    requires l in c.links && c.links[l].bandwidthBps > 0 && l in s.links
  {
    && InQueueOrder(offers, done, sent) && offers[done..] == Tickets(s.links[l])
    && Describes(s.log, sent)
    && TransitsOver(s.trace, l) == StepsOf(sent, l)
    && Pacing.PacerAfter(PacedOf(sent), c.links[l].bandwidthBps) == Some(s.links[l].sendDone)
  }

  predicate PacketsKept(log: seq<Record>, log1: seq<Record>) {
    |log| <= |log1| && forall i :: 0 <= i < |log| ==> log1[i].packet == log[i].packet && log1[i].node == log[i].node
  }

  /** A step that leaves the link's offers and pacer alone, but for being done with an offer or getting more. */
  lemma OrderKept(c: Config, s: State, s1: State, l: LinkId, offers: seq<Ticket>, done: nat, sent: seq<Departure>,
                  more: seq<Ticket>, done1: nat)
    requires l in c.links && c.links[l].bandwidthBps > 0 && l in s.links && l in s1.links
    requires Ordered(c, s, l, offers, done, sent) && PacketsKept(s.log, s1.log)
    requires s1.links[l].sendDone == s.links[l].sendDone && TransitsOver(s1.trace, l) == TransitsOver(s.trace, l)
    requires done <= done1 <= |offers| && Tickets(s1.links[l]) == offers[done1..] + more
    ensures Ordered(c, s1, l, offers + more, done1, sent)
  {
    hide Tickets, Pacing.PacerAfter;
    assert (offers + more)[done1..] == offers[done1..] + more;
  }

  lemma PacedSnoc(sent: seq<Departure>, d: Departure, bandwidthBps: nat, sendDone: Option<Time>)
    requires bandwidthBps > 0 && Pacing.PacerAfter(PacedOf(sent), bandwidthBps) == Some(sendDone)
    requires Pacing.CanSend(sendDone, d.time)
    ensures Pacing.PacerAfter(PacedOf(sent + [d]), bandwidthBps)
         == Some(Pacing.TrackSend(d.time, d.packet.size, bandwidthBps))
  {
    hide Pacing.SendDuration;
    var all := PacedOf(sent + [d]);
    assert all[..|all| - 1] == PacedOf(sent);
  }

  /** A send is of the first offer that the link has yet to deal with. */
  lemma OrderExtended(c: Config, s: State, s1: State, l: LinkId, offers: seq<Ticket>, done: nat, sent: seq<Departure>)
    returns (d: Departure)
    requires l in c.links && c.links[l].bandwidthBps > 0 && l in s.links && l in s1.links
    requires Ordered(c, s, l, offers, done, sent) && Tickets(s.links[l]) != []
    requires Tickets(s.links[l])[0].record < |s.log| && Outcome(c, s, s1, l, Tickets(s.links[l])[0], true)
    ensures d == Departure(done, Tickets(s.links[l])[0], s.now, s.log[Tickets(s.links[l])[0].record].packet,
                           s.log[Tickets(s.links[l])[0].record].node)
    ensures Ordered(c, s1, l, offers, done + 1, sent + [d])
  {
    hide Pacing.PacerAfter, Pacing.TrackSend;
    var t := Tickets(s.links[l])[0];
    var r := s.log[t.record];
    d := Departure(done, t, s.now, r.packet, r.node);
    var sent1 := sent + [d];
    PacedSnoc(sent, d, c.links[l].bandwidthBps, s.links[l].sendDone);
    TransitsAppend(s.trace, [StepOf(d, l)], l);
    OneTransit(StepOf(d, l), l);
    assert StepsOf(sent1, l) == StepsOf(sent, l) + [StepOf(d, l)];
    assert offers[done..][1..] == offers[done + 1..];
    assert offers[done] == t;
    hide Tickets, TransitsOver;
  }

  // ----- What each action leaves alone -----

  lemma AddsNoTransits(s: State, s1: State, kinds: seq<StepKind>, l: LinkId)
    requires Adds(s, s1, kinds) && forall i :: 0 <= i < |kinds| ==> !(kinds[i].PacketInTransit? && kinds[i].link == l)
    ensures TransitsOver(s1.trace, l) == TransitsOver(s.trace, l)
  {
    TransitsAppend(s.trace, Devices.StepsAt(kinds, s.now), l);
    NoTransits(Devices.StepsAt(kinds, s.now), l);
  }

  /** How records fare while a packet is forwarded: only its own record on the link it came from changes. */
  ghost predicate OnlyArrives(log: seq<Record>, log1: seq<Record>, origin: Option<nat>) {
    && |log| <= |log1|
    && (forall i :: 0 <= i < |log| ==>
          log1[i] == if origin == Some(i) then log[i].(fate := Arrived) else log[i])
    && (forall i :: |log| <= i < |log1| ==> !log1[i].fate.InTransit?)
  }

  lemma EnqueueFate(s: State, i: nat)
    requires i < |s.log| && s.log[i].node in s.nodes
    ensures |EnqueueOutbound(s, i).log| == |s.log| && !EnqueueOutbound(s, i).log[i].fate.InTransit?
  {
  }

  lemma PlaceFates(c: Config, s: State, i: nat, roll: Roll)
    requires ValidConfig(c) && i == |s.log| - 1 && s.log[i].node in s.nodes && s.log[i].node in c.nodes
    ensures forall k :: i <= k < |Place(c, s, i, roll).log| ==> !Place(c, s, i, roll).log[k].fate.InTransit?
  {
    hide ValidConfig, IsEndpoint;
    EnqueueFate(s, i);
    if roll.Duplicate? {
      var s2 := ArriveDuplicate(EnqueueOutbound(s, i), s.log[i].node, s.log[i].packet.(id := roll.id));
      EnqueueFate(s2, |s.log|);
      Devices.EnqueueKeepsRecords(s2, |s.log|);
    }
    hide EnqueueOutbound;
  }

  lemma ForwardRecords(c: Config, s: State, n: NodeId, p: Packet, roll: Roll, origin: Option<nat>)
    requires ValidConfig(c) && n in s.nodes && n in c.nodes && (origin.Some? ==> origin.value < |s.log|)
    ensures OnlyArrives(s.log, Forward(c, s, n, p, roll, origin).log, origin)
  {
    hide ValidConfig, Place;
    if NodeUp(s, n) {
      var s1 := Arrive(s, n, p, origin);
      Devices.PlaceKeepsRecords(c, s1, |s.log|, roll);
      PlaceFates(c, s1, |s.log|, roll);
    }
  }

  lemma ForwardLinks(c: Config, s: State, n: NodeId, p: Packet, roll: Roll, origin: Option<nat>)
    requires ValidConfig(c) && n in s.nodes && n in c.nodes
    requires origin.Some? ==> origin.value < |s.log| && s.log[origin.value].fate.InTransit?
    ensures Forward(c, s, n, p, roll, origin).links == s.links
  {
    hide ValidConfig, IsEndpoint, Forward, Devices.ForwardEffect;
    Devices.ForwardHasEffect(c, s, n, p, roll, origin);
  }

  /** How the packet on a link that gets to its far end is recorded. */
  function FateAtEnd(s: State, l: LinkId, i: nat): Fate
    requires l in s.links && i < |s.log| && s.log[i].fate.InTransit?
  {
    if After(s.links[l].lastDown, s.log[i].fate.sent) then LostInTransit else Arrived
  }

  ghost predicate OnlyLands(s: State, s1: State, l: LinkId, i: nat)
    requires l in s.links && i < |s.log| && s.log[i].fate.InTransit?
  {
    && s1.links == s.links && |s.log| <= |s1.log|
    && (forall k :: 0 <= k < |s.log| ==>
          s1.log[k] == if k == i then s.log[k].(fate := FateAtEnd(s, l, i)) else s.log[k])
    && (forall k :: |s.log| <= k < |s1.log| ==> !s1.log[k].fate.InTransit?)
  }

  lemma DeliverLands(c: Config, s: State, l: LinkId, i: nat, roll: Roll)
    requires ValidConfig(c) && l in c.links && l in s.links && TargetNode(c, l) in s.nodes && TargetNode(c, l) in c.nodes
    requires i < |s.log| && s.log[i].fate.InTransit?
    ensures OnlyLands(s, Deliver(c, s, l, i, roll), l, i)
  {
    hide ValidConfig, Forward;
    if !After(s.links[l].lastDown, s.log[i].fate.sent) {
      ForwardRecords(c, s, TargetNode(c, l), s.log[i].packet, roll, Some(i));
      ForwardLinks(c, s, TargetNode(c, l), s.log[i].packet, roll, Some(i));
    }
  }

  lemma ArrivalLands(c: Config, s: State, a: Action)
    requires ValidConfig(c) && Sane(c, s) && Enabled(c, s, a) && a.RunForwarder?
    ensures OnlyLands(s, Perform(c, s, a), a.link, a.record)
  {
    hide ValidConfig, Sane, Enabled, Perform, Deliver, TargetNode;
    ArrivalIs(c, s, a);
    DeliverLands(c, WithRolled(s, a), a.link, a.record, a.roll);
  }

  lemma CreateRecords(c: Config, s: State, a: Action)
    requires ValidConfig(c) && Sane(c, s) && Enabled(c, s, a) && a.Create?
    ensures OnlyArrives(s.log, Perform(c, s, a).log, None) && Perform(c, s, a).links == s.links
  {
    hide ValidConfig, Sane, Enabled, Perform, Forward, OnlyArrives;
    CreateIs(c, s, a);
    ForwardRecords(c, WithCreated(s, a), a.node, NewPacket(s, a), a.roll, None);
    ForwardLinks(c, WithCreated(s, a), a.node, NewPacket(s, a), a.roll, None);
  }

  /** Records keep their packets, and none of them starts or ends a stay on any link. */
  predicate NoFlightChanges(log: seq<Record>, log1: seq<Record>) {
    && PacketsKept(log, log1)
    && (forall i :: 0 <= i < |log| && (log[i].fate.InTransit? || log1[i].fate.InTransit?) ==> log1[i] == log[i])
    && (forall i :: |log| <= i < |log1| ==> !log1[i].fate.InTransit?)
  }

  /** The link's part in things is as it was. */
  predicate LinkKept(s: State, s1: State, l: LinkId) {
    && l in s.links && l in s1.links
    && s1.links[l] == s.links[l].(status := s1.links[l].status, lastDown := s1.links[l].lastDown)
  }

  lemma KeptTickets(s: State, s1: State, l: LinkId)
    requires LinkKept(s, s1, l)
    ensures Tickets(s1.links[l]) == Tickets(s.links[l]) && s1.links[l].sendDone == s.links[l].sendDone
  {
  }

  lemma QuietKeeps(c: Config, s: State, a: Action, l: LinkId)
    requires ValidConfig(c) && Sane(c, s) && Enabled(c, s, a) && l in s.links
    requires a.Tick? || a.AppRead? || a.LinkChange? || a.NodeChange?
    ensures LinkKept(s, Perform(c, s, a), l) && NoFlightChanges(s.log, Perform(c, s, a).log)
  {
    hide ValidConfig, Sane;
  }

  lemma QueueGrows(link: SimLink, queue: seq<Offer>)
    requires link.queue <= queue
    ensures Tickets(link.(queue := queue)) == Tickets(link) + TicketsOf(queue[|link.queue|..])
  {
    assert queue == link.queue + queue[|link.queue|..];
    assert TicketsOf(queue) == TicketsOf(link.queue) + TicketsOf(queue[|link.queue|..]);
  }

  /** The links that are offered a packet have it behind what they had. */
  lemma OffersExtend(c: Config, s: State, a: Action, l: LinkId)
    requires ValidConfig(c) && Sane(c, s) && Enabled(c, s, a) && l in s.links && l in c.links && a.RunNodeTask?
    ensures var s1 := Perform(c, s, a);
      && l in s1.links && s.links[l].queue <= s1.links[l].queue
      && s1.links[l] == s.links[l].(queue := s1.links[l].queue)
      && forall k :: |s.links[l].queue| <= k < |s1.links[l].queue| ==>
           s1.links[l].queue[k].extraDelay in {0, c.links[l].extraDelay}
  {
    KnownToBoth(c, s);
    OutboundKnownHere(c, s, a.node);
    var at := EveryCandidateIsOffered(c, s, a.node, a.slow, l);
    hide ValidConfig, Sane, OfferNext, Candidates, Offered;
    var i := s.nodes[a.node].outbound[0];
    OfferedDelays(c, s.links[l].queue, Perform(c, s, a).links[l].queue, l, i,
                  Candidates(c, a.node, s.log[i].packet.destination.ip), a.slow, at);
  }

  lemma OffersKeep(c: Config, s: State, a: Action, l: LinkId)
    requires ValidConfig(c) && Sane(c, s) && Enabled(c, s, a) && l in s.links && l in c.links && a.RunNodeTask?
    ensures var s1 := Perform(c, s, a);
      && l in s1.links && s1.log == s.log && s1.trace == s.trace && s1.links[l].sendDone == s.links[l].sendDone
      && Tickets(s1.links[l]) == Tickets(s.links[l]) + NewTickets(c, s, a, l)
    ensures forall t :: t in NewTickets(c, s, a, l) ==> t.extraDelay in {0, c.links[l].extraDelay}
  {
    OffersAddNothing(c, s, a);
    OffersExtend(c, s, a, l);
    hide ValidConfig, Sane, Enabled, Perform, Tickets;
    QueueGrows(s.links[l], Perform(c, s, a).links[l].queue);
  }

  lemma OutboundKnownHere(c: Config, s: State, n: NodeId)
    requires Sane(c, s) && n in s.nodes && s.nodes[n].outbound != []
    ensures s.nodes[n].outbound[0] < |s.log|
  {
  }

  // ----- One action -----

  /** The send that the action makes over the link, if it makes one. */
  ghost predicate SendsNow(c: Config, s: State, a: Action, l: LinkId)
    requires ValidConfig(c) && Sane(c, s) && Enabled(c, s, a)
  {
    OfLinkTask(a) && a.link == l && WillSend(c, s, a)
  }

  lemma TaskLinkKnown(c: Config, s: State, a: Action)
    requires ValidConfig(c) && Sane(c, s) && Enabled(c, s, a) && OfLinkTask(a)
    ensures a.link in s.links && a.link in c.links && c.links[a.link].bandwidthBps > 0
  {
    KnownToBoth(c, s);
    BandwidthKnown(c, a.link);
    hide ValidConfig, Sane;
  }

  lemma ConcernsNoOther(s: State, s1: State, m: LinkId, l: LinkId)
    requires m in s.links && l in s.links && l != m && OnlyConcerns(s, s1, m)
    ensures LinkKept(s, s1, l)
  {
  }

  lemma OutcomeKeepsPackets(c: Config, s: State, s1: State, l: LinkId, t: Ticket, goes: bool)
    requires l in s.links && l in c.links && c.links[l].bandwidthBps > 0 && t.record < |s.log|
    requires Outcome(c, s, s1, l, t, goes)
    ensures PacketsKept(s.log, s1.log) && OnlyConcerns(s, s1, l)
  {
    hide Tickets, Pacing.TrackSend, Pacing.CanSend, MovesUp;
  }

  lemma OtherLinkKept(c: Config, s: State, a: Action, s1: State, goes: bool, l: LinkId)
    requires ValidConfig(c) && Sane(c, s) && Enabled(c, s, a) && OfLinkTask(a) && l in s.links && l != a.link
    requires LinkActionOutcome(c, s, a, s1, goes)
    ensures LinkKept(s, s1, l) && PacketsKept(s.log, s1.log) && TransitsOver(s1.trace, l) == TransitsOver(s.trace, l)
  {
    TaskLinkKnown(c, s, a);
    hide ValidConfig, Sane, Enabled, Tickets, Outcome, OnlyConcerns, TransitsOver, Adds, LinkKept, PacketsKept;
    OutcomeKeepsPackets(c, s, s1, a.link, Tickets(s.links[a.link])[0], goes);
    ConcernsNoOther(s, s1, a.link, l);
    var kinds := OutcomeKinds(c, s, a, s1, goes);
    AddsNoTransits(s, s1, kinds, l);
  }

  lemma OutcomeKinds(c: Config, s: State, a: Action, s1: State, goes: bool) returns (kinds: seq<StepKind>)
    requires ValidConfig(c) && Sane(c, s) && Enabled(c, s, a) && OfLinkTask(a) && LinkActionOutcome(c, s, a, s1, goes)
    ensures Adds(s, s1, kinds) && |kinds| <= 1
    ensures forall i :: 0 <= i < |kinds| ==>
      if goes then kinds[i].PacketInTransit? && kinds[i].link == a.link else kinds[i].PacketDropped?
  {
    hide ValidConfig, Sane, Enabled, Tickets, MovesUp;
    kinds := if s1.trace == s.trace then [] else [s1.trace[|s.trace|].kind];
    assert s.trace + [] == s.trace;
    if kinds != [] {
      OneStep(s, kinds[0]);
    }
  }

  lemma NoGoMovesUp(c: Config, s: State, s1: State, l: LinkId, t: Ticket)
    requires l in s.links && l in c.links && c.links[l].bandwidthBps > 0 && t.record < |s.log|
    requires Outcome(c, s, s1, l, t, false)
    ensures l in s1.links && MovesUp(Tickets(s.links[l]), Tickets(s1.links[l])) && DoesNotGo(s, s1, l, t)
  {
    hide Tickets, DoesNotGo, MovesUp;
  }

  lemma MovedUpOrdered(c: Config, s: State, s1: State, l: LinkId, offers: seq<Ticket>, done: nat, sent: seq<Departure>)
    returns (done1: nat)
    requires l in c.links && c.links[l].bandwidthBps > 0 && l in s.links && l in s1.links
    requires Ordered(c, s, l, offers, done, sent) && PacketsKept(s.log, s1.log)
    requires s1.links[l].sendDone == s.links[l].sendDone && TransitsOver(s1.trace, l) == TransitsOver(s.trace, l)
    requires MovesUp(Tickets(s.links[l]), Tickets(s1.links[l]))
    ensures Ordered(c, s1, l, offers, done1, sent)
  {
    OrderIsInQueue(c, s, l, offers, done, sent);
    hide Tickets, TransitsOver, Ordered, PacketsKept;
    done1 := if Tickets(s1.links[l]) == Tickets(s.links[l]) then done else done + 1;
    assert offers[done..][1..] == offers[done + 1..];
    assert offers + [] == offers && offers[done1..] + [] == offers[done1..];
    OrderKept(c, s, s1, l, offers, done, sent, [], done1);
  }

  lemma StaysOrdered(c: Config, s: State, a: Action, s1: State, offers: seq<Ticket>, done: nat, sent: seq<Departure>)
    returns (done1: nat)
    requires ValidConfig(c) && Sane(c, s) && Enabled(c, s, a) && OfLinkTask(a)
    requires a.link in c.links && c.links[a.link].bandwidthBps > 0 && a.link in s1.links
    requires LinkActionOutcome(c, s, a, s1, false) && Ordered(c, s, a.link, offers, done, sent)
    ensures Ordered(c, s1, a.link, offers, done1, sent)
  {
    TaskLinkKnown(c, s, a);
    hide ValidConfig, Sane, Enabled, Tickets, TransitsOver, Ordered, Outcome, DoesNotGo, Adds, MovesUp, NoFlightChanges;
    var l := a.link;
    var kinds := OutcomeKinds(c, s, a, s1, false);
    AddsNoTransits(s, s1, kinds, l);
    NoGoMovesUp(c, s, s1, l, Tickets(s.links[l])[0]);
    NoGoKeepsPackets(s, s1, l, Tickets(s.links[l])[0]);
    FlightsKeepPackets(s.log, s1.log);
    done1 := MovedUpOrdered(c, s, s1, l, offers, done, sent);
  }

  lemma FlightsKeepPackets(log: seq<Record>, log1: seq<Record>)
    requires NoFlightChanges(log, log1)
    ensures PacketsKept(log, log1)
  {
  }

  lemma OrderIsInQueue(c: Config, s: State, l: LinkId, offers: seq<Ticket>, done: nat, sent: seq<Departure>)
    requires l in c.links && c.links[l].bandwidthBps > 0 && l in s.links && Ordered(c, s, l, offers, done, sent)
    ensures done <= |offers| && offers[done..] == Tickets(s.links[l])
  {
  }

  lemma NoGoKeepsPackets(s: State, s1: State, l: LinkId, t: Ticket)
    requires l in s.links && t.record < |s.log| && DoesNotGo(s, s1, l, t)
    ensures NoFlightChanges(s.log, s1.log) && s1.links[l].sendDone == s.links[l].sendDone
  {
  }

  /** The link's own task takes its turn. */
  lemma OwnTaskOrdered(c: Config, s: State, a: Action, offers: seq<Ticket>, done: nat, sent: seq<Departure>)
    returns (done1: nat, sent1: seq<Departure>)
    requires ValidConfig(c) && Sane(c, s) && TasksWait(c, s) && Enabled(c, s, a) && OfLinkTask(a)
    requires a.link in c.links && c.links[a.link].bandwidthBps > 0
    requires Ordered(c, s, a.link, offers, done, sent)
    ensures a.link in Perform(c, s, a).links
    ensures Ordered(c, Perform(c, s, a), a.link, offers, done1, sent1)
    ensures if WillSend(c, s, a) then |sent1| == |sent| + 1 && sent1[..|sent|] == sent && Leaves(c, s, a, sent1[|sent|])
            else sent1 == sent
  {
    LinkTaskOutcome(c, s, a);
    hide ValidConfig, Sane, TasksWait, Enabled, Perform, WillSend, Ordered, Tickets;
    if WillSend(c, s, a) {
      var d := OrderExtended(c, s, Perform(c, s, a), a.link, offers, done, sent);
      done1, sent1 := done + 1, sent + [d];
    } else {
      done1 := StaysOrdered(c, s, a, Perform(c, s, a), offers, done, sent);
      sent1 := sent;
    }
  }

  /** The departure that the action makes. */
  ghost predicate Leaves(c: Config, s: State, a: Action, d: Departure)
    requires ValidConfig(c) && Sane(c, s) && Enabled(c, s, a) && OfLinkTask(a)
  {
    var tickets := Tickets(s.links[a.link]);
    tickets != [] && d.ticket == tickets[0] && d.time == s.now
  }

  /** An action that is not of a link's task, nor of a node's. */
  lemma OtherActionKeeps(c: Config, s: State, a: Action, l: LinkId)
    requires ValidConfig(c) && Sane(c, s) && TasksWait(c, s) && Enabled(c, s, a) && l in s.links
    requires !OfLinkTask(a) && !a.RunNodeTask?
    ensures var s1 := Perform(c, s, a);
      LinkKept(s, s1, l) && PacketsKept(s.log, s1.log) && TransitsOver(s1.trace, l) == TransitsOver(s.trace, l)
  {
    hide ValidConfig, Sane, TasksWait, Enabled, Perform, TransitsOver, Adds, Shows;
    var kinds: seq<StepKind>;
    if a.Create? {
      kinds := CreateAdds(c, s, a);
      CreateRecords(c, s, a);
    } else if a.RunForwarder? {
      kinds := ArrivalAdds(c, s, a);
      KnownToBoth(c, s);
      LandingIsOfLink(c, s, a);
      ArrivalLands(c, s, a);
    } else {
      kinds := QuietAdds(c, s, a);
      QuietKeeps(c, s, a, l);
    }
    ShownIsNoSend(c, s, a, kinds);
    AddsNoTransits(s, Perform(c, s, a), kinds, l);
  }

  lemma LandingIsOfLink(c: Config, s: State, a: Action)
    requires ValidConfig(c) && Sane(c, s) && Enabled(c, s, a) && a.RunForwarder?
    ensures a.link in s.links && a.record < |s.log| && s.log[a.record].fate.InTransit?
    ensures s.log[a.record].fate.link == a.link && FirstOff(s, a.link, a.record)
  {
    hide ValidConfig, Sane;
  }

  /** The order on the link is kept by whatever action comes next; a send adds the departure it makes. */
  ghost predicate NextOrdered(c: Config, s: State, a: Action, l: LinkId, offers: seq<Ticket>,
                              sent: seq<Departure>, done1: nat, sent1: seq<Departure>)
    requires ValidConfig(c) && Sane(c, s) && Enabled(c, s, a) && l in s.links && l in c.links
    requires c.links[l].bandwidthBps > 0
  {
    var s1 := Perform(c, s, a);
    && l in s1.links && Ordered(c, s1, l, offers + NewTickets(c, s, a, l), done1, sent1)
    && if SendsNow(c, s, a, l) then |sent1| == |sent| + 1 && sent1[..|sent|] == sent && Leaves(c, s, a, sent1[|sent|])
       else sent1 == sent
  }

  lemma OffersOrdered(c: Config, s: State, a: Action, l: LinkId, offers: seq<Ticket>, done: nat, sent: seq<Departure>)
    requires ValidConfig(c) && Sane(c, s) && Enabled(c, s, a) && l in s.links && l in c.links && a.RunNodeTask?
    requires c.links[l].bandwidthBps > 0 && Ordered(c, s, l, offers, done, sent)
    ensures l in Perform(c, s, a).links
    ensures Ordered(c, Perform(c, s, a), l, offers + NewTickets(c, s, a, l), done, sent)
  {
    OrderIsInQueue(c, s, l, offers, done, sent);
    hide ValidConfig, Sane, Enabled, Perform, TransitsOver, Ordered, Tickets, NewTickets;
    OffersKeep(c, s, a, l);
    SamePackets(s, Perform(c, s, a));
    OrderKept(c, s, Perform(c, s, a), l, offers, done, sent, NewTickets(c, s, a, l), done);
  }

  lemma KeptOrdered(c: Config, s: State, s1: State, l: LinkId, offers: seq<Ticket>, done: nat, sent: seq<Departure>)
    requires l in c.links && c.links[l].bandwidthBps > 0 && l in s.links && Ordered(c, s, l, offers, done, sent)
    requires LinkKept(s, s1, l) && PacketsKept(s.log, s1.log) && TransitsOver(s1.trace, l) == TransitsOver(s.trace, l)
    ensures l in s1.links && Ordered(c, s1, l, offers + [], done, sent)
  {
    OrderIsInQueue(c, s, l, offers, done, sent);
    KeptTickets(s, s1, l);
    hide TransitsOver, Ordered, Tickets;
    assert offers[done..] + [] == offers[done..];
    OrderKept(c, s, s1, l, offers, done, sent, [], done);
  }

  lemma OtherOrdered(c: Config, s: State, a: Action, l: LinkId, offers: seq<Ticket>, done: nat, sent: seq<Departure>)
    requires ValidConfig(c) && Sane(c, s) && TasksWait(c, s) && Enabled(c, s, a) && l in s.links && l in c.links
    requires c.links[l].bandwidthBps > 0 && Ordered(c, s, l, offers, done, sent) && !(OfLinkTask(a) && a.link == l)
    ensures NextOrdered(c, s, a, l, offers, sent, done, sent)
  {
    hide ValidConfig, Sane, TasksWait, Enabled, Perform, TransitsOver, Ordered, Tickets, LinkActionOutcome, WillSend,
      LinkKept, NewTickets, PacketsKept;
    if a.RunNodeTask? {
      OffersOrdered(c, s, a, l, offers, done, sent);
    } else {
      var s1 := Perform(c, s, a);
      NothingOffered(c, s, a, l);
      if OfLinkTask(a) {
        LinkTaskOutcome(c, s, a);
        OtherLinkKept(c, s, a, s1, WillSend(c, s, a), l);
      } else {
        OtherActionKeeps(c, s, a, l);
      }
      KeptOrdered(c, s, s1, l, offers, done, sent);
    }
  }

  lemma SamePackets(s: State, s1: State)
    requires s1.log == s.log
    ensures PacketsKept(s.log, s1.log)
  {
  }

  lemma NothingOffered(c: Config, s: State, a: Action, l: LinkId)
    requires ValidConfig(c) && Sane(c, s) && Enabled(c, s, a) && l in s.links && !a.RunNodeTask?
    ensures NewTickets(c, s, a, l) == []
  {
  }

  lemma OwnOrdered(c: Config, s: State, a: Action, offers: seq<Ticket>, done: nat, sent: seq<Departure>)
    returns (done1: nat, sent1: seq<Departure>)
    requires ValidConfig(c) && Sane(c, s) && TasksWait(c, s) && Enabled(c, s, a) && OfLinkTask(a)
    requires a.link in s.links && a.link in c.links && c.links[a.link].bandwidthBps > 0
    requires Ordered(c, s, a.link, offers, done, sent)
    ensures NextOrdered(c, s, a, a.link, offers, sent, done1, sent1)
  {
    hide ValidConfig, Sane, TasksWait, Enabled, Perform, Ordered, WillSend, NewTickets, Leaves;
    done1, sent1 := OwnTaskOrdered(c, s, a, offers, done, sent);
    NothingOffered(c, s, a, a.link);
    assert offers + [] == offers;
  }

  lemma ActionOrdered(c: Config, s: State, a: Action, l: LinkId, offers: seq<Ticket>, done: nat, sent: seq<Departure>)
    returns (done1: nat, sent1: seq<Departure>)
    requires ValidConfig(c) && Sane(c, s) && TasksWait(c, s) && Enabled(c, s, a) && l in s.links && l in c.links
    requires c.links[l].bandwidthBps > 0 && Ordered(c, s, l, offers, done, sent)
    ensures NextOrdered(c, s, a, l, offers, sent, done1, sent1)
  {
    hide ValidConfig, Sane, TasksWait, Enabled, Perform, Ordered, NextOrdered;
    if OfLinkTask(a) && a.link == l {
      done1, sent1 := OwnOrdered(c, s, a, offers, done, sent);
    } else {
      done1, sent1 := done, sent;
      OtherOrdered(c, s, a, l, offers, done, sent);
    }
  }

  // ----- Whole runs: sends -----

  lemma StartOrdered(c: Config, l: LinkId)
    requires l in c.links && c.links[l].bandwidthBps > 0
    ensures l in Start(c).links && Ordered(c, Start(c), l, [], 0, [])
  {
    var link := Start(c).links[l];
    assert TicketsOf([]) == [] && Tickets(link) == [];
    assert Pacing.PacerAfter([], c.links[l].bandwidthBps) == Some(None);
    assert PacedOf([]) == [] && StepsOf([], l) == [];
    hide Tickets, Pacing.PacerAfter, PacedOf, StepsOf;
  }

  lemma {:induction false} RunsAreOrdered(c: Config, run: seq<Action>, l: LinkId)
    returns (done: nat, sent: seq<Departure>)
    requires ValidConfig(c) && IsRun(c, run) && l in c.links
    ensures c.links[l].bandwidthBps > 0 && l in StateAfter(c, run).value.links
    ensures Ordered(c, StateAfter(c, run).value, l, OffersTo(c, run, l), done, sent)
  {
    BandwidthKnown(c, l);
    hide ValidConfig, Sane, TasksWait, Enabled, Perform, Ordered, AtRest, NewTickets;
    if run == [] {
      StartOrdered(c, l);
      done, sent := 0, [];
    } else {
      RunSnoc(c, run);
      hide StateAfter;
      var init := run[..|run| - 1];
      var s := StateAfter(c, init).value;
      done, sent := RunsAreOrdered(c, init, l);
      RunsAreSane(c, init);
      done, sent := ActionOrdered(c, s, run[|run| - 1], l, OffersTo(c, init, l), done, sent);
    }
  }
}
