/** What one step of a link's task decides, for every case, from the bare facts of the state. */
module LinkDecisions {
  import opened Types
  import opened Network
  import opened Status
  import opened Simulator
  import opened LinkTasks
  import opened LinkMoves
  import opened Sanity
  import Devices
  import Pacing

  /** What a step of a link's task can come to. */
  datatype Decision =
    | Sleeps(deadline: Time)
    | AwaitsLink(notifier: nat)
    | AwaitsNode(notifier: nat)
    | Yields                                                 // to the next of the links preferred to it
    | GivesUp                                                // another link has the packet
    | Wipes                                                  // the packet predates a buffer clear
    | SendsIt
    | Fails                                                  // an assertion in `send`

  /** Once it need not wait: yields, gives up, wipes, sends or fails. */
  predicate DecidesClaim(s: State, l: LinkId, o: Offer, d: Decision)
    requires l in s.links && o.record < |s.log| && s.log[o.record].node in s.nodes
  {
    var r := s.log[o.record];
    var clear := s.nodes[r.node].lastBufferClear;
    if !r.fate.Buffered? then d == GivesUp
    else if o.preferred != [] && o.preferred[0] != l then d == Yields
    else if clear.Some? && r.since < clear.value then d == Wipes
    else if s.links[l].status.status.Up? then d == SendsIt
    else d == Fails
  }

  /** Starting, a task sleeps unless its link is up and paced; the sleep lasts until the pacer is free. */
  predicate DecidesStart(s: State, l: LinkId, o: Offer, d: Decision)
    requires l in s.links && o.record < |s.log| && s.log[o.record].node in s.nodes
  {
    var link := s.links[l];
    var paced := link.sendDone.None? || link.sendDone.value <= s.now;
    if link.status.status.Up? && paced then DecidesClaim(s, l, o, d)
    else d == Sleeps(if paced then s.now else link.sendDone.value)
  }

  /**
   * Resuming with its packet still to be handled, a task that did not just yield waits for the link,
   * then for the node; after the wait for the node only the link is looked at again.
   */
  predicate DecidesResume(s: State, l: LinkId, o: Offer, d: Decision)
    requires l in s.links && o.record < |s.log| && s.log[o.record].node in s.nodes
  {
    var t, link, node := s.links[l].task, s.links[l].status.status, s.nodes[s.log[o.record].node].status.status;
    if t.Yielded? || !s.log[o.record].fate.Buffered? then DecidesClaim(s, l, o, d)
    else if link.Down? && !t.AwaitingLink? then d == AwaitsLink(link.notifier)
    else if node.Down? && !t.AwaitingNode? then d == AwaitsNode(node.notifier)
    else if link.Down? then d == AwaitsLink(link.notifier)
    else DecidesClaim(s, l, o, d)
  }

  function TaskAfter(o: Offer, d: Decision): Task {
    match d
    case Sleeps(deadline) => Sleeping(o, deadline)
    case AwaitsLink(notifier) => AwaitingLink(o, notifier)
    case AwaitsNode(notifier) => AwaitingNode(o, notifier)
    case Yields => if o.preferred == [] then Idle else Yielded(o.(preferred := o.preferred[1..]))
    case _ => Idle
  }

  /** What the decision does to the packet's record, to the trace, and to the run. */
  predicate Done(c: Config, s: State, s1: State, l: LinkId, o: Offer, d: Decision)
    requires l in c.links && o.record < |s.log|
  {
    var r := s.log[o.record];
    var fate :=
      match d
      case Wipes => Cleared
      case SendsIt => InTransit(l, s.now, s.now + c.links[l].delay + o.extraDelay)
      case Fails => Stranded
      case _ => r.fate;
    && s1.log == s.log[o.record := r.(fate := fate)]
    && s1.trace == s.trace
         + (if d.Wipes? then [Step(s.now, PacketDropped(r.packet.id, r.node, BufferCleared))]
            else if d.SendsIt? then [Step(s.now, PacketInTransit(r.packet.id, r.node, l))] else [])
    && (s1.crashed <==> s.crashed || d.Fails?)
  }

  /** Space in the node's buffer is given back by a send, and by nothing else; the pacer is set by it. */
  predicate SpaceAfter(c: Config, s: State, s1: State, l: LinkId, r: Record, d: Decision)
    requires r.node in s.nodes && l in s.links && l in c.links
  {
    && s1.nodes == (if d.SendsIt? then
         s.nodes[r.node := s.nodes[r.node].(available := s.nodes[r.node].available + r.packet.size)] else s.nodes)
    && l in s1.links && s1.links[l].lastDown == s.links[l].lastDown
    && (if d.SendsIt? then
          s1.links[l].sendDone.Some?
          && Pacing.TakesMilliseconds(s.now, s1.links[l].sendDone.value, r.packet.size, c.links[l].bandwidthBps)
        else s1.links[l].sendDone == s.links[l].sendDone)
  }

  predicate Decided(c: Config, s: State, s1: State, l: LinkId, o: Offer, d: Decision, queue: seq<Offer>)
    requires l in c.links && l in s.links && o.record < |s.log| && s.log[o.record].node in s.nodes
  {
    && Done(c, s, s1, l, o, d) && SpaceAfter(c, s, s1, l, s.log[o.record], d)
    && s1.now == s.now && s1.used == s.used && s1.nextNumber == s.nextNumber && s1.links.Keys == s.links.Keys
    && (forall m :: m in s.links && m != l ==> s1.links[m] == s.links[m])
    && s1.links[l].task == TaskAfter(o, d) && s1.links[l].queue == queue && s1.links[l].status == s.links[l].status
  }

  lemma SameRecord(s: State, o: Offer)
    requires o.record < |s.log|
    ensures s.log[o.record := s.log[o.record].(fate := s.log[o.record].fate)] == s.log
    ensures s.trace + [] == s.trace
  {
    assert s.log[o.record].(fate := s.log[o.record].fate) == s.log[o.record];
  }

  lemma PreferDecides(c: Config, s: State, l: LinkId, o: Offer) returns (d: Decision)
    requires l in s.links && l in c.links && c.links[l].bandwidthBps > 0
    requires o.record < |s.log| && s.log[o.record].node in s.nodes
    requires Handled(s, o) || Pacing.CanSend(s.links[l].sendDone, s.now)
    ensures DecidesClaim(s, l, o, d) && Decided(c, s, Prefer(c, s, l, o), l, o, d, s.links[l].queue)
  {
    var r := s.log[o.record];
    var clear := s.nodes[r.node].lastBufferClear;
    SameRecord(s, o);
    d := if !r.fate.Buffered? then GivesUp
         else if o.preferred != [] && o.preferred[0] != l then Yields
         else if clear.Some? && r.since < clear.value then Wipes
         else if s.links[l].status.status.Up? then SendsIt
         else Fails;
    Pacing.SendTakesMilliseconds(s.now, r.packet.size, c.links[l].bandwidthBps);
    hide Pacing.TrackSend, Pacing.TakesMilliseconds;
  }

  lemma WaitDecides(c: Config, s: State, l: LinkId, o: Offer, d: Decision)
    requires l in s.links && l in c.links && o.record < |s.log| && s.log[o.record].node in s.nodes
    requires d.Sleeps? || d.AwaitsLink? || d.AwaitsNode?
    ensures Decided(c, s, SetTask(s, l, TaskAfter(o, d)), l, o, d, s.links[l].queue)
  {
    SameRecord(s, o);
  }

  lemma AwaitNodeDecides(c: Config, s: State, l: LinkId, o: Offer) returns (d: Decision)
    requires l in s.links && l in c.links && c.links[l].bandwidthBps > 0
    requires o.record < |s.log| && s.log[o.record].node in s.nodes && Pacing.CanSend(s.links[l].sendDone, s.now)
    ensures var link, node := s.links[l].status.status, s.nodes[s.log[o.record].node].status.status;
      if node.Down? then d == AwaitsNode(node.notifier)
      else if link.Down? then d == AwaitsLink(link.notifier)
      else DecidesClaim(s, l, o, d)
    ensures Decided(c, s, AwaitNode(c, s, l, o), l, o, d, s.links[l].queue)
  {
    hide Prefer, Decided, DecidesClaim;
    var link, node := s.links[l].status.status, s.nodes[s.log[o.record].node].status.status;
    if node.Down? || link.Down? {
      d := if node.Down? then AwaitsNode(node.notifier) else AwaitsLink(link.notifier);
      WaitDecides(c, s, l, o, d);
    } else {
      d := PreferDecides(c, s, l, o);
    }
  }

  lemma AwaitLinkDecides(c: Config, s: State, l: LinkId, o: Offer) returns (d: Decision)
    requires l in s.links && l in c.links && c.links[l].bandwidthBps > 0
    requires o.record < |s.log| && s.log[o.record].node in s.nodes && Pacing.CanSend(s.links[l].sendDone, s.now)
    ensures var link, node := s.links[l].status.status, s.nodes[s.log[o.record].node].status.status;
      if link.Down? then d == AwaitsLink(link.notifier)
      else if node.Down? then d == AwaitsNode(node.notifier)
      else DecidesClaim(s, l, o, d)
    ensures Decided(c, s, AwaitLink(c, s, l, o), l, o, d, s.links[l].queue)
  {
    hide AwaitNode, Decided, DecidesClaim;
    var link := s.links[l].status.status;
    if link.Down? {
      d := AwaitsLink(link.notifier);
      WaitDecides(c, s, l, o, d);
    } else {
      d := AwaitNodeDecides(c, s, l, o);
    }
  }

  lemma ResumeDecides(c: Config, s: State, l: LinkId) returns (d: Decision)
    requires l in s.links && l in c.links && c.links[l].bandwidthBps > 0 && !s.links[l].task.Idle?
    requires var o := s.links[l].task.offer; o.record < |s.log| && s.log[o.record].node in s.nodes
    requires PacerWaits(s.links[l], s.now) && Ready(s, l)
    ensures var o := s.links[l].task.offer;
      DecidesResume(s, l, o, d) && Decided(c, s, Resume(c, s, l), l, o, d, s.links[l].queue)
  {
    hide Prefer, AwaitLink, AwaitNode, Decided, DecidesClaim;
    var t, o := s.links[l].task, s.links[l].task.offer;
    if t.Yielded? || Handled(s, o) || (t.AwaitingNode? && LinkUp(s, l)) {
      d := PreferDecides(c, s, l, o);
    } else if t.AwaitingLink? {
      d := AwaitNodeDecides(c, s, l, o);
    } else {
      d := AwaitLinkDecides(c, s, l, o);
    }
  }

  lemma PoppedDecides(c: Config, s: State, s1: State, l: LinkId, o: Offer, d: Decision)
    requires l in s.links && s.links[l].queue != [] && l in c.links && o == s.links[l].queue[0]
    requires o.record < |s.log| && s.log[o.record].node in s.nodes
    requires Decided(c, PopOffer(s, l), s1, l, o, d, s.links[l].queue[1..])
    ensures Decided(c, s, s1, l, o, d, s.links[l].queue[1..])
    ensures DecidesClaim(PopOffer(s, l), l, o, d) <==> DecidesClaim(s, l, o, d)
  {
  }

  lemma StartDecides(c: Config, s: State, l: LinkId) returns (d: Decision)
    requires l in s.links && l in c.links && c.links[l].bandwidthBps > 0 && s.links[l].task.Idle?
    requires s.links[l].queue != []
    requires var o := s.links[l].queue[0]; o.record < |s.log| && s.log[o.record].node in s.nodes
    ensures var o := s.links[l].queue[0];
      DecidesStart(s, l, o, d) && Decided(c, s, TakeOffer(c, s, l), l, o, d, s.links[l].queue[1..])
  {
    hide Prefer, Decided, DecidesClaim;
    var link, o, s1 := s.links[l], s.links[l].queue[0], PopOffer(s, l);
    if HasBandwidthAvailable(link, s.now) {
      d := PreferDecides(c, s1, l, o);
    } else {
      d := Sleeps(s.now + Pacing.DurationUntilCanSend(link.sendDone, s.now));
      WaitDecides(c, s1, l, o, d);
    }
    PoppedDecides(c, s, TakeOffer(c, s, l), l, o, d);
  }

  // ----- Actions -----

  /** The offer that the action of a link's task is about, and what is queued behind it. */
  predicate Works(s: State, a: Action, o: Offer, rest: seq<Offer>) {
    && OfLinkTask(a) && a.link in s.links
    && var link := s.links[a.link];
       if a.StartLinkTask? then link.task.Idle? && link.queue == [o] + rest
       else !link.task.Idle? && o == link.task.offer && rest == link.queue
  }

  predicate Decides(s: State, a: Action, o: Offer, d: Decision)
    requires OfLinkTask(a) && a.link in s.links && o.record < |s.log| && s.log[o.record].node in s.nodes
  {
    if a.StartLinkTask? then DecidesStart(s, a.link, o, d) else DecidesResume(s, a.link, o, d)
  }

  lemma StartTaskDecides(c: Config, s: State, a: Action) returns (o: Offer, d: Decision)
    requires ValidConfig(c) && Sane(c, s) && Enabled(c, s, a) && a.StartLinkTask?
    ensures a.link in s.links && a.link in c.links && o.record < |s.log| && s.log[o.record].node in s.nodes
    ensures s.links[a.link].task.Idle? && s.links[a.link].queue != [] && o == s.links[a.link].queue[0]
    ensures DecidesStart(s, a.link, o, d)
    ensures Decided(c, s, Perform(c, s, a), a.link, o, d, s.links[a.link].queue[1..])
  {
    var l := a.link;
    BandwidthKnown(c, l);
    KnownToBoth(c, s);
    QueuedOfferIsSane(c, s, l);
    hide ValidConfig, Sane, TakeOffer, Decided, DecidesStart;
    o := s.links[l].queue[0];
    d := StartDecides(c, s, l);
  }

  lemma ResumeTaskDecides(c: Config, s: State, a: Action) returns (d: Decision)
    requires ValidConfig(c) && Sane(c, s) && TasksWait(c, s) && Enabled(c, s, a) && a.ResumeLinkTask?
    ensures a.link in s.links && a.link in c.links && !s.links[a.link].task.Idle?
    ensures var o := s.links[a.link].task.offer;
      && o.record < |s.log| && s.log[o.record].node in s.nodes
      && DecidesResume(s, a.link, o, d) && Decided(c, s, Perform(c, s, a), a.link, o, d, s.links[a.link].queue)
  {
    var l := a.link;
    BandwidthKnown(c, l);
    KnownToBoth(c, s);
    TaskOfferIsSane(c, s, l);
    assert PacerWaits(s.links[l], s.now);
    hide ValidConfig, Sane, TasksWait, Resume, Decided, DecidesResume;
    d := ResumeDecides(c, s, l);
  }

  /**
   * Every step of a link's task, in any state whose tasks wait as they should: it is about the offer
   * that the task holds or, if idle, the first one queued; it takes the decision that the facts call
   * for; and the decision settles the task, the record, the trace, the buffer and everything else.
   */
  lemma TasksDecide(c: Config, s: State, a: Action) returns (o: Offer, rest: seq<Offer>, d: Decision)
    requires ValidConfig(c) && Sane(c, s) && TasksWait(c, s) && Enabled(c, s, a) && OfLinkTask(a)
    ensures a.link in s.links && a.link in c.links && o.record < |s.log| && s.log[o.record].node in s.nodes
    ensures Works(s, a, o, rest) && Decides(s, a, o, d) && Decided(c, s, Perform(c, s, a), a.link, o, d, rest)
  {
    hide ValidConfig, Sane, TasksWait, Enabled, Perform, Decided, DecidesStart, DecidesResume;
    if a.StartLinkTask? {
      o, d := StartTaskDecides(c, s, a);
      rest := s.links[a.link].queue[1..];
    } else {
      d := ResumeTaskDecides(c, s, a);
      o, rest := s.links[a.link].task.offer, s.links[a.link].queue;
    }
  }
}
