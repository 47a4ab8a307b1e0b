/** What one step of a link's task does: exactly when it sends, and what becomes of the offers it was made. */
module LinkMoves {
  import opened Types
  import opened Network
  import opened Status
  import opened Simulator
  import opened LinkTasks
  import opened Sanity
  import Devices
  import Pacing

  /** An offer as far as the link that got it is concerned. */
  datatype Ticket = Ticket(record: nat, extraDelay: Time)

  function TicketOf(o: Offer): Ticket {
    Ticket(o.record, o.extraDelay)
  }

  function TicketsOf(queue: seq<Offer>): seq<Ticket> {
    seq(|queue|, i requires 0 <= i < |queue| => TicketOf(queue[i]))
  }

  /** The offers that the link has yet to deal with: the one its task works on, then those in its queue. */
  function Tickets(link: SimLink): seq<Ticket> {
    (if link.task.Idle? then [] else [TicketOf(link.task.offer)]) + TicketsOf(link.queue)
  }

  /** The packet is still to be sent: no link has claimed it, and no clear came after it. */
  predicate ToBeSent(s: State, o: Offer)
    requires o.record < |s.log| && s.log[o.record].node in s.nodes
  {
    var r := s.log[o.record];
    var clear := s.nodes[r.node].lastBufferClear;
    r.fate.Buffered? && (clear.None? || clear.value <= r.since)
  }

  lemma ToBeSentIs(s: State, o: Offer)
    requires o.record < |s.log| && s.log[o.record].node in s.nodes
    ensures ToBeSent(s, o) <==> !Handled(s, o) && !ClearedFromBuffer(s, s.log[o.record])
  {
  }

  /** The link is up and done with its last send. */
  predicate IsFree(link: SimLink, now: Time) {
    link.status.status.Up? && (link.sendDone.None? || link.sendDone.value <= now)
  }

  lemma IsFreeIs(link: SimLink, now: Time)
    requires link.task.Idle?
    ensures IsFree(link, now) <==> HasBandwidthAvailable(link, now)
  {
  }

  /**
   * The guard under which an action sends. A task that starts looks at its link and pacer, not at
   * the node; neither does a task that let others go first, or that waited for the node to come up,
   * look at the node again when it resumes. The other waits end with the node up.
   */
  ghost predicate WillSend(c: Config, s: State, a: Action)
    requires ValidConfig(c) && Sane(c, s) && Enabled(c, s, a)
  {
    match a
    case StartLinkTask(l) =>
      QueuedOfferIsSane(c, s, l);
      var o := s.links[l].queue[0];
      IsFree(s.links[l], s.now) && HasTurn(l, o) && ToBeSent(s, o)
    case ResumeLinkTask(l) =>
      TaskOfferIsSane(c, s, l);
      var t := s.links[l].task;
      && HasTurn(l, t.offer) && ToBeSent(s, t.offer) && s.links[l].status.status.Up?
      && (t.Yielded? || t.AwaitingNode? || s.nodes[s.log[t.offer.record].node].status.status.Up?)
    case _ => false
  }

  // ----- The two kinds of outcome -----

  /** Only the link itself, its packet's record and the node it leaves are concerned. */
  ghost predicate OnlyConcerns(s: State, s1: State, l: LinkId)
    requires l in s.links
  {
    && s1.now == s.now && l in s1.links && s1.links == s.links[l := s1.links[l]]
    && |s1.log| == |s.log| && s1.nodes.Keys == s.nodes.Keys && s1.links[l].status == s.links[l].status
  }

  /** The packet goes onto the link. */
  ghost predicate Goes(c: Config, s: State, s1: State, l: LinkId, t: Ticket)
    requires l in s.links && l in c.links && c.links[l].bandwidthBps > 0 && t.record < |s.log|
  {
    var r := s.log[t.record];
    && OnlyConcerns(s, s1, l)
    && r.fate.Buffered? && Pacing.CanSend(s.links[l].sendDone, s.now)
    && s1.log == s.log[t.record := r.(fate := InTransit(l, s.now, s.now + c.links[l].delay + t.extraDelay))]
    && s1.trace == s.trace + [Step(s.now, PacketInTransit(r.packet.id, r.node, l))]
    && s1.links[l].sendDone == Pacing.TrackSend(s.now, r.packet.size, c.links[l].bandwidthBps)
  }

  /** It does not; it may be found wiped, or be given up for lost by a task that fails. */
  ghost predicate DoesNotGo(s: State, s1: State, l: LinkId, t: Ticket)
    requires l in s.links && t.record < |s.log|
  {
    var r := s.log[t.record];
    && OnlyConcerns(s, s1, l) && s1.links[l].sendDone == s.links[l].sendDone
    && ((s1.log == s.log && s1.trace == s.trace)
      || (r.fate.Buffered? && s1.log == s.log[t.record := r.(fate := Stranded)] && s1.trace == s.trace)
      || (r.fate.Buffered? && s1.log == s.log[t.record := r.(fate := Cleared)]
          && s1.trace == s.trace + [Step(s.now, PacketDropped(r.packet.id, r.node, BufferCleared))]))
  }

  /** The link keeps its offers, or is done with the first of them. */
  predicate MovesUp(before: seq<Ticket>, after: seq<Ticket>) {
    before != [] && (after == before || after == before[1..])
  }

  lemma TicketsShown(link: SimLink)
    ensures link.task.Idle? ==> Tickets(link) == TicketsOf(link.queue)
    ensures !link.task.Idle? ==> Tickets(link) == [TicketOf(link.task.offer)] + TicketsOf(link.queue)
    ensures !link.task.Idle? ==> Tickets(link)[1..] == TicketsOf(link.queue)
  {
  }

  lemma PreferOutcome(c: Config, s: State, l: LinkId, o: Offer)
    requires l in s.links && l in c.links && c.links[l].bandwidthBps > 0
    requires o.record < |s.log| && s.log[o.record].node in s.nodes
    ensures var s1 := Prefer(c, s, l, o);
      && s1.links.Keys == s.links.Keys && s1.links[l].queue == s.links[l].queue
      && (if HasTurn(l, o) && ToBeSent(s, o) && LinkUp(s, l) && Pacing.CanSend(s.links[l].sendDone, s.now)
          then Goes(c, s, s1, l, TicketOf(o)) && s1.links[l].task.Idle?
          else DoesNotGo(s, s1, l, TicketOf(o))
               && (s1.links[l].task.Idle? || TicketOf(s1.links[l].task.offer) == TicketOf(o)))
  {
    ToBeSentIs(s, o);
    hide Pacing.TrackSend, ClearedFromBuffer, ToBeSent;
  }

  /** What an action of a link's task comes to, for the first of the link's offers. */
  ghost predicate Outcome(c: Config, s: State, s1: State, l: LinkId, t: Ticket, goes: bool)
    requires l in s.links && l in c.links && c.links[l].bandwidthBps > 0 && t.record < |s.log|
  {
    && l in s1.links && Tickets(s.links[l]) != [] && Tickets(s.links[l])[0] == t
    && if goes then Goes(c, s, s1, l, t) && Tickets(s1.links[l]) == Tickets(s.links[l])[1..]
       else DoesNotGo(s, s1, l, t) && MovesUp(Tickets(s.links[l]), Tickets(s1.links[l]))
  }

  lemma PreferredOutcome(c: Config, s: State, l: LinkId)
    requires l in s.links && l in c.links && c.links[l].bandwidthBps > 0 && !s.links[l].task.Idle?
    requires var o := s.links[l].task.offer; o.record < |s.log| && s.log[o.record].node in s.nodes
    requires Pacing.CanSend(s.links[l].sendDone, s.now) || Handled(s, s.links[l].task.offer)
    ensures var o := s.links[l].task.offer;
      Outcome(c, s, Prefer(c, s, l, o), l, TicketOf(o), HasTurn(l, o) && ToBeSent(s, o) && LinkUp(s, l))
  {
    var o := s.links[l].task.offer;
    PreferOutcome(c, s, l, o);
    TicketsShown(s.links[l]);
    TicketsShown(Prefer(c, s, l, o).links[l]);
    hide Prefer, Goes, DoesNotGo, Tickets, ClearedFromBuffer, TicketsOf;
  }

  lemma WaitOutcome(c: Config, s: State, l: LinkId, task: Task)
    requires l in s.links && l in c.links && c.links[l].bandwidthBps > 0 && !s.links[l].task.Idle?
    requires s.links[l].task.offer.record < |s.log| && !task.Idle? && task.offer == s.links[l].task.offer
    ensures Outcome(c, s, SetTask(s, l, task), l, TicketOf(task.offer), false)
  {
    TicketsShown(s.links[l]);
    TicketsShown(SetTask(s, l, task).links[l]);
    hide Tickets, TicketsOf;
  }

  /** Where a wait leads, given what it finds. */
  lemma AwaitOutcome(c: Config, s: State, l: LinkId)
    requires l in s.links && l in c.links && c.links[l].bandwidthBps > 0 && !s.links[l].task.Idle?
    requires var o := s.links[l].task.offer; o.record < |s.log| && s.log[o.record].node in s.nodes
    requires Pacing.CanSend(s.links[l].sendDone, s.now)
    ensures var o := s.links[l].task.offer;
      var goes := HasTurn(l, o) && ToBeSent(s, o) && LinkUp(s, l) && NodeUp(s, s.log[o.record].node);
      && Outcome(c, s, AwaitNode(c, s, l, o), l, TicketOf(o), goes)
      && Outcome(c, s, AwaitLink(c, s, l, o), l, TicketOf(o), goes)
  {
    var o := s.links[l].task.offer;
    var node := s.nodes[s.log[o.record].node].status.status;
    var link := s.links[l].status.status;
    PreferredOutcome(c, s, l);
    if node.Down? { WaitOutcome(c, s, l, AwaitingNode(o, node.notifier)); }
    if link.Down? { WaitOutcome(c, s, l, AwaitingLink(o, link.notifier)); }
    hide Prefer, SetTask, Outcome, ClearedFromBuffer;
  }

  lemma ResumeOutcome(c: Config, s: State, l: LinkId)
    requires l in s.links && l in c.links && c.links[l].bandwidthBps > 0 && !s.links[l].task.Idle?
    requires var o := s.links[l].task.offer; o.record < |s.log| && s.log[o.record].node in s.nodes
    requires PacerWaits(s.links[l], s.now) && Ready(s, l)
    ensures var t := s.links[l].task;
      var o := t.offer;
      Outcome(c, s, Resume(c, s, l), l, TicketOf(o), HasTurn(l, o) && ToBeSent(s, o) && LinkUp(s, l)
        && (t.Yielded? || t.AwaitingNode? || NodeUp(s, s.log[o.record].node)))
  {
    hide Prefer, Outcome, AwaitLink, AwaitNode, ClearedFromBuffer;
    PreferredOutcome(c, s, l);
    if !Handled(s, s.links[l].task.offer) {
      AwaitOutcome(c, s, l);
    }
  }

  lemma QueuedTickets(link: SimLink, after: SimLink, o: Offer)
    requires link.task.Idle? && link.queue != [] && TicketOf(link.queue[0]) == TicketOf(o)
    requires after.queue == link.queue[1..]
    ensures Tickets(link) != [] && Tickets(link)[0] == TicketOf(o)
    ensures after.task.Idle? ==> Tickets(after) == Tickets(link)[1..]
    ensures !after.task.Idle? && TicketOf(after.task.offer) == TicketOf(o) ==> Tickets(after) == Tickets(link)
  {
    assert TicketsOf(link.queue)[1..] == TicketsOf(link.queue[1..]);
    assert TicketsOf(link.queue) == [TicketOf(o)] + TicketsOf(link.queue[1..]);
  }

  /** What a queued offer's first attempt comes to, with the offer off the queue. */
  lemma TakenOutcome(c: Config, s: State, l: LinkId, s1: State)
    requires l in s.links && l in c.links && c.links[l].bandwidthBps > 0 && s.links[l].task.Idle?
    requires s.links[l].queue != []
    requires var o := s.links[l].queue[0]; o.record < |s.log| && s.log[o.record].node in s.nodes
    requires s1 == s.(links := s.links[l := s.links[l].(queue := s.links[l].queue[1..])])
    ensures var o := s.links[l].queue[0];
      var goes := HasTurn(l, o) && ToBeSent(s, o) && LinkUp(s, l) && Pacing.CanSend(s.links[l].sendDone, s.now);
      Outcome(c, s, Prefer(c, s1, l, o), l, TicketOf(o), goes)
  {
    var o := s.links[l].queue[0];
    PreferOutcome(c, s1, l, o);
    QueuedTickets(s.links[l], Prefer(c, s1, l, o).links[l], o);
    hide Prefer, Tickets, ClearedFromBuffer, Pacing.CanSend, Pacing.TrackSend;
  }

  lemma StartOutcome(c: Config, s: State, l: LinkId)
    requires l in s.links && l in c.links && c.links[l].bandwidthBps > 0 && s.links[l].task.Idle?
    requires s.links[l].queue != []
    requires var o := s.links[l].queue[0]; o.record < |s.log| && s.log[o.record].node in s.nodes
    ensures var o := s.links[l].queue[0];
      Outcome(c, s, TakeOffer(c, s, l), l, TicketOf(o),
              IsFree(s.links[l], s.now) && HasTurn(l, o) && ToBeSent(s, o))
  {
    var link := s.links[l];
    var o := link.queue[0];
    var s1 := s.(links := s.links[l := link.(queue := link.queue[1..])]);
    IsFreeIs(link, s.now);
    if HasBandwidthAvailable(link, s.now) {
      hide Prefer, Outcome, ToBeSent;
      TakenOutcome(c, s, l, s1);
    } else {
      QueuedTickets(link, TakeOffer(c, s, l).links[l], o);
      hide Prefer, Tickets, ToBeSent;
    }
  }

  // ----- Actions -----

  predicate OfLinkTask(a: Action) {
    a.StartLinkTask? || a.ResumeLinkTask?
  }

  ghost predicate LinkActionOutcome(c: Config, s: State, a: Action, s1: State, goes: bool)
    requires ValidConfig(c) && Sane(c, s) && Enabled(c, s, a) && OfLinkTask(a)
  {
    var tickets := Tickets(s.links[a.link]);
    && tickets != [] && tickets[0].record < |s.log|
    && Outcome(c, s, s1, a.link, tickets[0], goes)
  }

  lemma StartActionOutcome(c: Config, s: State, a: Action)
    requires ValidConfig(c) && Sane(c, s) && Enabled(c, s, a) && a.StartLinkTask?
    ensures LinkActionOutcome(c, s, a, Perform(c, s, a), WillSend(c, s, a))
  {
    QueuedOfferIsSane(c, s, a.link);
    BandwidthKnown(c, a.link);
    KnownToBoth(c, s);
    hide ValidConfig, Sane, TakeOffer, ToBeSent, Tickets;
    StartOutcome(c, s, a.link);
  }

  lemma ResumeActionOutcome(c: Config, s: State, a: Action)
    requires ValidConfig(c) && Sane(c, s) && TasksWait(c, s) && Enabled(c, s, a) && a.ResumeLinkTask?
    ensures LinkActionOutcome(c, s, a, Perform(c, s, a), WillSend(c, s, a))
  {
    TaskOfferIsSane(c, s, a.link);
    BandwidthKnown(c, a.link);
    KnownToBoth(c, s);
    assert PacerWaits(s.links[a.link], s.now);
    hide ValidConfig, Sane, TasksWait, Resume, ToBeSent, Tickets;
    ResumeOutcome(c, s, a.link);
  }

  lemma KnownToBoth(c: Config, s: State)
    requires Sane(c, s)
    ensures s.nodes.Keys == c.nodes.Keys && s.links.Keys == c.links.Keys
  {
  }

  lemma LinkTaskOutcome(c: Config, s: State, a: Action)
    requires ValidConfig(c) && Sane(c, s) && TasksWait(c, s) && Enabled(c, s, a) && OfLinkTask(a)
    ensures LinkActionOutcome(c, s, a, Perform(c, s, a), WillSend(c, s, a))
  {
    hide ValidConfig, Sane, TasksWait, WillSend, LinkActionOutcome, Perform, Enabled;
    if a.StartLinkTask? {
      StartActionOutcome(c, s, a);
    } else {
      ResumeActionOutcome(c, s, a);
    }
  }

  /** The step from `s` to `s1` records that packet `id` went from node `n` onto link `l`. */
  ghost predicate RecordsSend(s: State, s1: State, id: PacketId, n: NodeId, l: LinkId) {
    && |s.trace| <= |s1.trace|
    && exists k :: |s.trace| <= k < |s1.trace| && s1.trace[k].kind == PacketInTransit(id, n, l)
  }

  /** The packet that a link's task has before it. */
  ghost function FirstRecord(c: Config, s: State, a: Action): Record
    requires ValidConfig(c) && Sane(c, s) && Enabled(c, s, a) && OfLinkTask(a)
  {
    if a.StartLinkTask? then
      QueuedOfferIsSane(c, s, a.link);
      s.log[s.links[a.link].queue[0].record]
    else
      TaskOfferIsSane(c, s, a.link);
      s.log[s.links[a.link].task.offer.record]
  }

  lemma FirstTicketIs(c: Config, s: State, a: Action)
    requires ValidConfig(c) && Sane(c, s) && Enabled(c, s, a) && OfLinkTask(a)
    ensures var tickets := Tickets(s.links[a.link]);
      tickets != [] && tickets[0].record < |s.log| && s.log[tickets[0].record] == FirstRecord(c, s, a)
  {
    hide ValidConfig, Sane;
    TicketsShown(s.links[a.link]);
    if a.StartLinkTask? {
      QueuedOfferIsSane(c, s, a.link);
      TicketsStart(s.links[a.link].queue);
    } else {
      TaskOfferIsSane(c, s, a.link);
    }
    hide Tickets, TicketsOf;
  }

  lemma TicketsStart(queue: seq<Offer>)
    ensures queue != [] ==> TicketsOf(queue) != [] && TicketsOf(queue)[0] == TicketOf(queue[0])
  {
  }

  /** The steps that an action adds. */
  ghost predicate Adds(s: State, s1: State, kinds: seq<StepKind>) {
    s1.trace == s.trace + Devices.StepsAt(kinds, s.now)
  }

  predicate NoSends(kinds: seq<StepKind>) {
    forall i :: 0 <= i < |kinds| ==> !kinds[i].PacketInTransit?
  }

  lemma AddsNoSends(s: State, s1: State, kinds: seq<StepKind>, id: PacketId, n: NodeId, l: LinkId)
    requires Adds(s, s1, kinds) && NoSends(kinds)
    ensures !RecordsSend(s, s1, id, n, l)
  {
  }

  lemma OneStepRecords(s: State, s1: State, k: StepKind, id: PacketId, n: NodeId, l: LinkId)
    requires s1.trace == s.trace + [Step(s.now, k)]
    ensures RecordsSend(s, s1, id, n, l) <==> k == PacketInTransit(id, n, l)
  {
    assert s1.trace[|s.trace|].kind == k;
  }

  lemma OutcomeShows(c: Config, s: State, s1: State, l: LinkId, t: Ticket, goes: bool)
    requires l in s.links && l in c.links && c.links[l].bandwidthBps > 0 && t.record < |s.log|
    requires Outcome(c, s, s1, l, t, goes)
    ensures var r := s.log[t.record];
      && (goes ==> s1.trace == s.trace + [Step(s.now, PacketInTransit(r.packet.id, r.node, l))])
      && (!goes && s1.trace != s.trace ==>
            s1.trace == s.trace + [Step(s.now, PacketDropped(r.packet.id, r.node, BufferCleared))])
  {
    hide Tickets, MovesUp, Pacing.TrackSend, Pacing.CanSend;
  }

  lemma OutcomeRecords(c: Config, s: State, a: Action, s1: State, goes: bool, id: PacketId, n: NodeId, l: LinkId)
    requires ValidConfig(c) && Sane(c, s) && Enabled(c, s, a) && OfLinkTask(a)
    requires LinkActionOutcome(c, s, a, s1, goes)
    ensures RecordsSend(s, s1, id, n, l) <==>
      goes && a.link == l && FirstRecord(c, s, a).packet.id == id && FirstRecord(c, s, a).node == n
  {
    FirstTicketIs(c, s, a);
    BandwidthKnown(c, a.link);
    KnownToBoth(c, s);
    var r := FirstRecord(c, s, a);
    hide ValidConfig, Sane, Enabled, Tickets, FirstRecord, Outcome, RecordsSend;
    OutcomeShows(c, s, s1, a.link, Tickets(s.links[a.link])[0], goes);
    if goes {
      OneStepRecords(s, s1, PacketInTransit(r.packet.id, r.node, a.link), id, n, l);
    } else if s1.trace == s.trace {
      assert !RecordsSend(s, s1, id, n, l) by {
        NothingRecords(s, s1, id, n, l);
      }
    } else {
      OneStepRecords(s, s1, PacketDropped(r.packet.id, r.node, BufferCleared), id, n, l);
    }
  }

  lemma NothingRecords(s: State, s1: State, id: PacketId, n: NodeId, l: LinkId)
    requires s1.trace == s.trace
    ensures !RecordsSend(s, s1, id, n, l)
  {
  }

  lemma ForwardKinds(n: NodeId, up: bool, endpoint: bool, available: nat, p: Packet, roll: Roll)
    ensures var kinds := Devices.ForwardEffect(n, up, endpoint, available, p, roll).kinds;
      && kinds != [] && kinds[0] == PacketInNode(p.id, p.number, p.size, n, !up)
      && forall i :: 0 < i < |kinds| ==> kinds[i].PacketDropped? || kinds[i].PacketDuplicated?
  {
  }

  lemma ForwardAdds(c: Config, s: State, n: NodeId, p: Packet, roll: Roll, origin: Option<nat>)
    returns (kinds: seq<StepKind>)
    requires ValidConfig(c) && n in s.nodes && n in c.nodes
    requires origin.Some? ==> origin.value < |s.log| && s.log[origin.value].fate.InTransit?
    ensures Adds(s, Forward(c, s, n, p, roll, origin), kinds)
    ensures kinds != [] && kinds[0] == PacketInNode(p.id, p.number, p.size, n, !NodeUp(s, n))
    ensures forall i :: 0 < i < |kinds| ==> kinds[i].PacketDropped? || kinds[i].PacketDuplicated?
  {
    hide ValidConfig, IsEndpoint, Forward, Devices.ForwardEffect;
    var up, endpoint, available := NodeUp(s, n), IsEndpoint(c, n, p.destination), s.nodes[n].available;
    Devices.ForwardHasEffect(c, s, n, p, roll, origin);
    ForwardKinds(n, up, endpoint, available, p, roll);
    kinds := Devices.ForwardEffect(n, up, endpoint, available, p, roll).kinds;
  }

  /** Steps by which no packet comes off a link or goes onto one. */
  predicate Quiet(k: StepKind) {
    k.PacketDropped? || k.PacketDuplicated? || k.PacketDeliveredToApplication? || k.NetworkEvent?
  }

  predicate QuietFrom(kinds: seq<StepKind>, from: nat) {
    forall i :: from <= i < |kinds| ==> Quiet(kinds[i])
  }

  /** The first step of a packet's arrival, or of its creation. */
  ghost predicate Shows(c: Config, s: State, a: Action, k: StepKind)
    requires ValidConfig(c) && Sane(c, s) && Enabled(c, s, a) && (a.Create? || a.RunForwarder?)
  {
    if a.Create? then k == PacketInNode(a.id, s.nextNumber, a.size, a.node, !NodeUp(s, a.node))
    else
      var p := s.log[a.record].packet;
      if After(s.links[a.link].lastDown, s.log[a.record].fate.sent) then k == PacketLostInTransit(p.id, a.link)
      else k.PacketInNode? && k.packet == p.id && k.node == TargetNode(c, a.link)
  }

  function NewPacket(s: State, a: Action): Packet
    requires a.Create?
  {
    Packet(a.id, s.nextNumber, a.size, a.destination)
  }

  /** The state from which a newly created packet is forwarded. */
  function WithCreated(s: State, a: Action): State
    requires a.Create?
  {
    s.(used := s.used + {a.id} + RollIds(a.roll), nextNumber := s.nextNumber + 1)
  }

  function WithRolled(s: State, a: Action): State
    requires a.RunForwarder?
  {
    s.(used := s.used + RollIds(a.roll))
  }

  lemma CreateIs(c: Config, s: State, a: Action)
    requires ValidConfig(c) && Sane(c, s) && Enabled(c, s, a) && a.Create?
    ensures a.node in s.nodes && a.node in c.nodes && HEADER_BYTES <= a.size
    ensures Perform(c, s, a) == Forward(c, WithCreated(s, a), a.node, NewPacket(s, a), a.roll, None)
  {
    KnownToBoth(c, s);
    hide ValidConfig, Forward, Sane;
  }

  lemma ArrivalIs(c: Config, s: State, a: Action)
    requires ValidConfig(c) && Sane(c, s) && Enabled(c, s, a) && a.RunForwarder?
    ensures a.link in c.links && a.link in s.links && TargetNode(c, a.link) in s.nodes && TargetNode(c, a.link) in c.nodes
    ensures a.record < |s.log| && s.log[a.record].fate.InTransit? && s.log[a.record].fate.link == a.link
    ensures Perform(c, s, a) == Deliver(c, WithRolled(s, a), a.link, a.record, a.roll)
  {
    KnownToBoth(c, s);
    hide ValidConfig, Deliver, Sane;
  }

  lemma CreateAdds(c: Config, s: State, a: Action) returns (kinds: seq<StepKind>)
    requires ValidConfig(c) && Sane(c, s) && Enabled(c, s, a) && a.Create?
    ensures Adds(s, Perform(c, s, a), kinds) && kinds != [] && Shows(c, s, a, kinds[0]) && QuietFrom(kinds, 1)
    ensures forall i :: 0 < i < |kinds| ==> !kinds[i].NetworkEvent?
  {
    hide ValidConfig, Sane, Enabled, Perform, Forward;
    CreateIs(c, s, a);
    kinds := ForwardAdds(c, WithCreated(s, a), a.node, NewPacket(s, a), a.roll, None);
  }

  lemma DeliverAdds(c: Config, s: State, l: LinkId, i: nat, roll: Roll) returns (kinds: seq<StepKind>)
    requires ValidConfig(c) && l in c.links && l in s.links && TargetNode(c, l) in s.nodes && TargetNode(c, l) in c.nodes
    requires i < |s.log| && s.log[i].fate.InTransit?
    ensures Adds(s, Deliver(c, s, l, i, roll), kinds) && kinds != []
    ensures if After(s.links[l].lastDown, s.log[i].fate.sent) then kinds == [PacketLostInTransit(s.log[i].packet.id, l)]
            else kinds[0].PacketInNode? && kinds[0].packet == s.log[i].packet.id && kinds[0].node == TargetNode(c, l)
    ensures forall j :: 0 < j < |kinds| ==> kinds[j].PacketDropped? || kinds[j].PacketDuplicated?
  {
    hide ValidConfig, Forward, TargetNode;
    if After(s.links[l].lastDown, s.log[i].fate.sent) {
      kinds := [PacketLostInTransit(s.log[i].packet.id, l)];
      OneStep(s, kinds[0]);
    } else {
      kinds := ForwardAdds(c, s, TargetNode(c, l), s.log[i].packet, roll, Some(i));
    }
  }

  lemma ArrivalAdds(c: Config, s: State, a: Action) returns (kinds: seq<StepKind>)
    requires ValidConfig(c) && Sane(c, s) && Enabled(c, s, a) && a.RunForwarder?
    ensures Adds(s, Perform(c, s, a), kinds) && kinds != [] && Shows(c, s, a, kinds[0]) && QuietFrom(kinds, 1)
    ensures forall i :: 0 < i < |kinds| ==> !kinds[i].NetworkEvent?
  {
    hide ValidConfig, Sane, Enabled, Perform, Deliver, TargetNode;
    ArrivalIs(c, s, a);
    kinds := DeliverAdds(c, WithRolled(s, a), a.link, a.record, a.roll);
  }

  lemma OneStep(s: State, k: StepKind)
    ensures [Step(s.now, k)] == Devices.StepsAt([k], s.now) && [] == Devices.StepsAt([], s.now)
  {
  }

  /** The one step, if any, of an action by which no packet comes off a link or goes onto one. */
  ghost function QuietKinds(c: Config, s: State, a: Action): seq<StepKind>
    requires ValidConfig(c) && Sane(c, s) && Enabled(c, s, a)
  {
    match a
    case AppRead(i) =>
      var r := s.log[i];
      [PacketDeliveredToApplication(r.packet.id, r.packet.number, r.packet.size, r.node)]
    case LinkChange(e) => [NetworkEvent(Some(e), None)]
    case NodeChange(e) => [NetworkEvent(None, Some(e))]
    case _ => []
  }

  lemma QuietTrace(c: Config, s: State, a: Action)
    requires ValidConfig(c) && Sane(c, s) && Enabled(c, s, a)
    requires a.Tick? || a.AppRead? || a.LinkChange? || a.NodeChange?
    ensures var kinds := QuietKinds(c, s, a);
      if kinds == [] then Perform(c, s, a).trace == s.trace
      else Perform(c, s, a).trace == s.trace + [Step(s.now, kinds[0])]
  {
    hide ValidConfig, Sane;
  }

  /**
   * What is recorded of the other actions. Time passes and offers are made unrecorded; a read shows
   * the packet with its number and its size, and ends its stay; an event shows as it was given.
   */
  lemma OthersRecord(c: Config, s: State, a: Action)
    requires ValidConfig(c) && Sane(c, s) && Enabled(c, s, a)
    ensures a.Tick? ==> Perform(c, s, a) == s.(now := a.time)
    ensures a.RunNodeTask? ==> Perform(c, s, a).trace == s.trace && Perform(c, s, a).log == s.log
    ensures a.AppRead? ==>
      var r, s1 := s.log[a.record], Perform(c, s, a);
      && s1 == s.(log := s.log[a.record := r.(fate := Read)], trace := s1.trace)
      && s1.trace
         == s.trace + [Step(s.now, PacketDeliveredToApplication(r.packet.id, r.packet.number, r.packet.size, r.node))]
    ensures a.LinkChange? ==>
      var s1 := Perform(c, s, a);
      && s1 == s.(links := s1.links, trace := s.trace + [Step(s.now, NetworkEvent(Some(a.linkEvent), None))])
      && forall l :: l in s.links && l != a.linkEvent.link ==> l in s1.links && s1.links[l] == s.links[l]
    ensures a.NodeChange? ==>
      var s1 := Perform(c, s, a);
      && s1 == s.(nodes := s1.nodes, trace := s.trace + [Step(s.now, NetworkEvent(None, Some(a.nodeEvent)))])
      && forall n :: n in s.nodes && n != a.nodeEvent.node ==> n in s1.nodes && s1.nodes[n] == s.nodes[n]
  {
    hide ValidConfig, Sane, OfferNext, CreatePacket, PerformOnLink;
    if a.RunNodeTask? {
      OffersAddNothing(c, s, a);
    }
  }

  lemma QuietKindsAreQuiet(c: Config, s: State, a: Action)
    requires ValidConfig(c) && Sane(c, s) && Enabled(c, s, a)
    ensures QuietFrom(QuietKinds(c, s, a), 0) && |QuietKinds(c, s, a)| <= 1
    ensures a.RunNodeTask? ==> QuietKinds(c, s, a) == []
  {
    hide ValidConfig, Sane;
  }

  lemma QuietAdds(c: Config, s: State, a: Action) returns (kinds: seq<StepKind>)
    requires ValidConfig(c) && Sane(c, s) && Enabled(c, s, a)
    requires !OfLinkTask(a) && !a.Create? && !a.RunForwarder?
    ensures kinds == QuietKinds(c, s, a) && Adds(s, Perform(c, s, a), kinds) && QuietFrom(kinds, 0)
  {
    kinds := QuietKinds(c, s, a);
    hide ValidConfig, Sane, Enabled, Perform, QuietKinds, QuietFrom;
    QuietKindsAreQuiet(c, s, a);
    assert s.trace + [] == s.trace;
    OneStep(s, NetworkEvent(None, None));
    if a.RunNodeTask? {
      OffersAddNothing(c, s, a);
    } else {
      QuietTrace(c, s, a);
    }
    if kinds != [] {
      OneStep(s, kinds[0]);
    }
  }

  lemma OffersAddNothing(c: Config, s: State, a: Action)
    requires ValidConfig(c) && Sane(c, s) && Enabled(c, s, a) && a.RunNodeTask?
    ensures Perform(c, s, a).trace == s.trace && Perform(c, s, a).log == s.log && Perform(c, s, a).now == s.now
    ensures Perform(c, s, a).links.Keys == s.links.Keys
  {
    KnownToBoth(c, s);
    hide ValidConfig, OfferAll, Candidates, DirectLinks, AllRoutedLinks, Addresses;
    var i := s.nodes[a.node].outbound[0];
    var links := Candidates(c, a.node, s.log[i].packet.destination.ip);
    CandidatesStartHere(c, a.node, s.log[i].packet.destination.ip);
    OffersLeaveLog(c, TakeOutbound(s, a.node), i, links, links, a.slow);
  }

  lemma {:induction false} OffersLeaveLog(c: Config, s: State, i: nat, all: seq<LinkId>, links: seq<LinkId>,
                                          slow: seq<bool>)
    requires |slow| == |links| && forall l :: l in links ==> l in s.links && l in c.links
    ensures var s1 := OfferAll(c, s, i, all, links, slow);
      s1 == s.(links := s1.links) && s1.links.Keys == s.links.Keys
    decreases |links|
  {
    if links != [] {
      var o := Offer(i, all, if slow[0] then c.links[links[0]].extraDelay else 0);
      OffersLeaveLog(c, OfferTo(s, links[0], o), i, all, links[1..], slow[1..]);
    }
  }

  /**
   * Which action sends, in any state whose tasks wait as they should: an action records a packet's
   * way onto a link exactly if it is of that link's task, the packet is the first the task has
   * before it, and the guard holds. Nothing else ever sends.
   */
  lemma SendsExactly(c: Config, s: State, a: Action, id: PacketId, n: NodeId, l: LinkId)
    requires ValidConfig(c) && Sane(c, s) && TasksWait(c, s) && Enabled(c, s, a)
    ensures RecordsSend(s, Perform(c, s, a), id, n, l) <==>
      && OfLinkTask(a) && a.link == l && WillSend(c, s, a)
      && FirstRecord(c, s, a).packet.id == id && FirstRecord(c, s, a).node == n
  {
    hide ValidConfig, Sane, TasksWait, Enabled, Perform, FirstRecord, WillSend, Shows, RecordsSend;
    if OfLinkTask(a) {
      LinkTaskOutcome(c, s, a);
      OutcomeRecords(c, s, a, Perform(c, s, a), WillSend(c, s, a), id, n, l);
    } else {
      var kinds: seq<StepKind>;
      if a.Create? {
        kinds := CreateAdds(c, s, a);
      } else if a.RunForwarder? {
        kinds := ArrivalAdds(c, s, a);
      } else {
        kinds := QuietAdds(c, s, a);
      }
      ShownIsNoSend(c, s, a, kinds);
      AddsNoSends(s, Perform(c, s, a), kinds, id, n, l);
    }
  }

  lemma ShownIsNoSend(c: Config, s: State, a: Action, kinds: seq<StepKind>)
    requires ValidConfig(c) && Sane(c, s) && Enabled(c, s, a) && !OfLinkTask(a)
    requires a.Create? || a.RunForwarder? ==> kinds != [] && Shows(c, s, a, kinds[0]) && QuietFrom(kinds, 1)
    requires !a.Create? && !a.RunForwarder? ==> QuietFrom(kinds, 0)
    ensures NoSends(kinds)
  {
    hide ValidConfig, Sane, Enabled;
    assert forall i :: 0 < i < |kinds| && QuietFrom(kinds, 1) ==> Quiet(kinds[i]);
  }

  // ----- Sends from a node that is down -----

  /** The guard of a send whose node is down: no wait but the one for the node itself ends in it. */
  ghost predicate SendsThoughDown(c: Config, s: State, a: Action)
    requires ValidConfig(c) && Sane(c, s) && Enabled(c, s, a)
  {
    match a
    case StartLinkTask(l) =>
      QueuedOfferIsSane(c, s, l);
      var o := s.links[l].queue[0];
      && !NodeUp(s, s.log[o.record].node)
      && IsFree(s.links[l], s.now) && HasTurn(l, o) && ToBeSent(s, o)
    case ResumeLinkTask(l) =>
      TaskOfferIsSane(c, s, l);
      var t := s.links[l].task;
      && !NodeUp(s, s.log[t.offer.record].node)
      && (t.Yielded? || t.AwaitingNode?) && HasTurn(l, t.offer) && ToBeSent(s, t.offer) && LinkUp(s, l)
    case _ => false
  }

  lemma ThoughDownIs(c: Config, s: State, a: Action)
    requires ValidConfig(c) && Sane(c, s) && Enabled(c, s, a)
    ensures SendsThoughDown(c, s, a) <==>
      OfLinkTask(a) && WillSend(c, s, a) && FirstRecord(c, s, a).node in s.nodes && !NodeUp(s, FirstRecord(c, s, a).node)
  {
    KnownToBoth(c, s);
    if a.StartLinkTask? {
      QueuedOfferIsSane(c, s, a.link);
    } else if a.ResumeLinkTask? {
      TaskOfferIsSane(c, s, a.link);
    }
    hide ValidConfig, Sane, ToBeSent, IsFree;
  }

  /** Packets are sent from a node that is down exactly by the actions with that guard. */
  lemma SendsThoughDownExactly(c: Config, s: State, a: Action)
    requires ValidConfig(c) && Sane(c, s) && TasksWait(c, s) && Enabled(c, s, a)
    ensures SendsThoughDown(c, s, a) <==>
      exists id, n, l :: n in s.nodes && !NodeUp(s, n) && RecordsSend(s, Perform(c, s, a), id, n, l)
  {
    hide ValidConfig, Sane, TasksWait, Perform, RecordsSend, SendsThoughDown, WillSend, FirstRecord, Enabled;
    ThoughDownIs(c, s, a);
    if exists id, n, l :: n in s.nodes && !NodeUp(s, n) && RecordsSend(s, Perform(c, s, a), id, n, l) {
      var id, n, l :| n in s.nodes && !NodeUp(s, n) && RecordsSend(s, Perform(c, s, a), id, n, l);
      SendsExactly(c, s, a, id, n, l);
    }
    if SendsThoughDown(c, s, a) {
      var r := FirstRecord(c, s, a);
      SendsExactly(c, s, a, r.packet.id, r.node, a.link);
    }
  }

  /** A node's status goes up and down again. */
  function Flicker(s: State, n: NodeId): State
    requires n in s.nodes
  {
    ProcessNodeEvent(ProcessNodeEvent(s, NodeEvent(n, Some(GoUp), false)), NodeEvent(n, Some(GoDown), false))
  }

  lemma FlickerFires(s: State, n: NodeId, notifier: nat)
    requires n in s.nodes && s.nodes[n].status.status == Down(notifier) && ValidCell(s.nodes[n].status)
    ensures var s2 := Flicker(s, n);
      && s2.links == s.links && s2.log == s.log && s2.now == s.now && s2.crashed == s.crashed
      && n in s2.nodes && s2.nodes[n].lastBufferClear == s.nodes[n].lastBufferClear
      && Fired(s2.nodes[n].status, notifier) && !NodeUp(s2, n)
  {
  }

  lemma FlickerSane(c: Config, s: State, n: NodeId)
    requires Sane(c, s) && TasksWait(c, s) && n in s.nodes
    ensures Sane(c, Flicker(s, n))
  {
    hide Sane, TasksWait, UpdateStatus;
    NodeEventSane(c, s, NodeEvent(n, Some(GoUp), false));
    NodeEventSane(c, ProcessNodeEvent(s, NodeEvent(n, Some(GoUp), false)), NodeEvent(n, Some(GoDown), false));
  }

  lemma WokenThoughDown(c: Config, s: State, l: LinkId)
    requires ValidConfig(c) && Sane(c, s) && !s.crashed && l in s.links
    requires s.links[l].task.AwaitingNode? && LinkUp(s, l)
    requires var t := s.links[l].task;
      && t.offer.record < |s.log| && s.log[t.offer.record].node in s.nodes
      && HasTurn(l, t.offer) && ToBeSent(s, t.offer)
      && Fired(s.nodes[s.log[t.offer.record].node].status, t.notifier) && !NodeUp(s, s.log[t.offer.record].node)
    ensures Enabled(c, s, ResumeLinkTask(l)) && SendsThoughDown(c, s, ResumeLinkTask(l))
  {
    hide ValidConfig, Sane, ToBeSent, Candidates, Ready;
    assert Ready(s, l) by { WokenIsReady(s, l); }
    TaskOfferIsSane(c, s, l);
  }

  lemma WokenIsReady(s: State, l: LinkId)
    requires l in s.links && s.links[l].task.AwaitingNode?
    requires var t := s.links[l].task;
      && t.offer.record < |s.log| && s.log[t.offer.record].node in s.nodes
      && Fired(s.nodes[s.log[t.offer.record].node].status, t.notifier)
    ensures Ready(s, l)
  {
  }

  lemma SameToBeSent(s: State, s2: State, o: Offer)
    requires o.record < |s.log| && s.log[o.record].node in s.nodes && ToBeSent(s, o)
    requires s2.log == s.log && s.log[o.record].node in s2.nodes
    requires s2.nodes[s.log[o.record].node].lastBufferClear == s.nodes[s.log[o.record].node].lastBufferClear
    ensures ToBeSent(s2, o)
  {
  }

  /**
   * A task that waits for its node goes on once the node came up, and sends even if the node went
   * down again before the task got to resume.
   */
  lemma DownAgainStillSends(c: Config, s: State, l: LinkId)
    requires ValidConfig(c) && Sane(c, s) && TasksWait(c, s) && !s.crashed && l in s.links
    requires s.links[l].task.AwaitingNode? && LinkUp(s, l)
    requires HasTurn(l, s.links[l].task.offer) && ToBeSent(s, s.links[l].task.offer)
    requires s.nodes[s.log[s.links[l].task.offer.record].node].status.status == Down(s.links[l].task.notifier)
    ensures var s2 := Flicker(s, s.log[s.links[l].task.offer.record].node);
      Sane(c, s2) && Enabled(c, s2, ResumeLinkTask(l)) && SendsThoughDown(c, s2, ResumeLinkTask(l))
  {
    TaskOfferIsSane(c, s, l);
    CellsAreValid(c, s);
    hide ValidConfig, Sane, TasksWait, Flicker, ToBeSent;
    var o := s.links[l].task.offer;
    var n := s.log[o.record].node;
    FlickerSane(c, s, n);
    FlickerFires(s, n, s.links[l].task.notifier);
    SameToBeSent(s, Flicker(s, n), o);
    WokenThoughDown(c, Flicker(s, n), l);
  }

  lemma CellsAreValid(c: Config, s: State)
    requires Sane(c, s) && TasksWait(c, s)
    ensures forall n :: n in s.nodes ==> ValidCell(s.nodes[n].status)
  {
  }
}
