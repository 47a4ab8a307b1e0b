/** The task of a link: what its waits guarantee, and exactly when a send fails its assertions. */
module LinkTasks {
  import opened Types
  import opened Network
  import opened Status
  import opened Simulator
  import Pacing

  /**
   * What a task can rely on while it waits: it sleeps no longer than until the pacer is free, and
   * from then on the pacer stays free until the task itself sends.
   */
  predicate PacerWaits(link: SimLink, now: Time) {
    match link.task
    case Idle => true
    case Sleeping(_, deadline) =>
      && (now < deadline ==> link.sendDone == Some(deadline))
      && (link.sendDone.Some? ==> link.sendDone.value <= deadline)
    case _ => Pacing.CanSend(link.sendDone, now)
  }

  /** Waiters hold notifiers that were really made, so the next Up fires them. */
  predicate NotifiersMade(s: State, link: SimLink)
    requires !link.task.Idle? ==> link.task.offer.record < |s.log| && s.log[link.task.offer.record].node in s.nodes
  {
    match link.task
    case AwaitingLink(_, notifier) => notifier < link.status.made
    case AwaitingNode(o, notifier) => notifier < s.nodes[s.log[o.record].node].status.made
    case _ => true
  }

  ghost predicate TasksWait(c: Config, s: State)
    requires Sane(c, s)
  {
    && (forall l :: l in s.links ==> ValidCell(s.links[l].status))
    && (forall n :: n in s.nodes ==> ValidCell(s.nodes[n].status))
    && (forall l :: l in s.links ==> PacerWaits(s.links[l], s.now) && NotifiersMade(s, s.links[l]))
  }

  /** The task has its turn: no preferred link is left to wait for, or the next one is this one. */
  predicate HasTurn(l: LinkId, o: Offer) {
    o.preferred == [] || o.preferred[0] == l
  }

  /** It resumes from letting others go first, and finds its packet still to be sent but its link down. */
  predicate FindsLinkDown(s: State, l: LinkId)
    requires l in s.links
    requires var t := s.links[l].task; !t.Idle? ==> t.offer.record < |s.log| && s.log[t.offer.record].node in s.nodes
  {
    var t := s.links[l].task;
    && t.Yielded? && HasTurn(l, t.offer) && s.links[l].status.status.Down?
    && s.log[t.offer.record].fate.Buffered?
    && var clear := s.nodes[s.log[t.offer.record].node].lastBufferClear;
       clear.None? || clear.value <= s.log[t.offer.record].since
  }

  lemma PreferCrashes(c: Config, s: State, l: LinkId, o: Offer)
    requires l in s.links && l in c.links && c.links[l].bandwidthBps > 0 && !s.crashed
    requires o.record < |s.log| && s.log[o.record].node in s.nodes
    requires Pacing.CanSend(s.links[l].sendDone, s.now) || Handled(s, o)
    ensures Prefer(c, s, l, o).crashed <==>
      HasTurn(l, o) && !Handled(s, o) && !ClearedFromBuffer(s, s.log[o.record]) && !LinkUp(s, l)
  {
    hide Pacing.TrackSend;
  }

  /**
   * When a wait for readiness ends with the packet still to be sent, the link is up and its pacer
   * permits a send, whatever status events came in between.
   */
  lemma WaitEndsReady(c: Config, s: State, l: LinkId)
    requires l in s.links && l in c.links && c.links[l].bandwidthBps > 0 && PermitHeld(s.links[l].task)
    requires var o := s.links[l].task.offer; o.record < |s.log| && s.log[o.record].node in s.nodes
    requires PacerWaits(s.links[l], s.now) && Ready(s, l) && !Handled(s, s.links[l].task.offer)
    ensures !PermitHeld(Resume(c, s, l).links[l].task) ==>
      LinkUp(s, l) && Pacing.CanSend(s.links[l].sendDone, s.now)
  {
    hide Prefer;
  }

  /** The same for a state whose tasks wait as they should. */
  lemma WaitsEndReady(c: Config, s: State, l: LinkId)
    requires ValidConfig(c) && Sane(c, s) && TasksWait(c, s) && Enabled(c, s, ResumeLinkTask(l))
    requires PermitHeld(s.links[l].task) && !Handled(s, s.links[l].task.offer)
    ensures var s1 := Perform(c, s, ResumeLinkTask(l));
      l in s1.links && !PermitHeld(s1.links[l].task) ==> LinkUp(s, l) && Pacing.CanSend(s.links[l].sendDone, s.now)
  {
    BandwidthKnown(c, l);
    TaskOfferIsSane(c, s, l);
    hide ValidConfig, Resume, SaneOffer;
    assert PacerWaits(s.links[l], s.now);
    WaitEndsReady(c, s, l);
  }

  lemma StartNeverCrashes(c: Config, s: State, l: LinkId)
    requires ValidConfig(c) && Sane(c, s) && Enabled(c, s, StartLinkTask(l))
    ensures !Perform(c, s, StartLinkTask(l)).crashed
  {
    hide ValidConfig, Prefer;
    QueuedOfferIsSane(c, s, l);
    var link := s.links[l];
    var o := link.queue[0];
    var s1 := s.(links := s.links[l := link.(queue := link.queue[1..])]);
    if HasBandwidthAvailable(link, s.now) {
      BandwidthKnown(c, l);
      PreferCrashes(c, s1, l, o);
    }
  }

  lemma BandwidthKnown(c: Config, l: LinkId)
    requires ValidConfig(c) && l in c.links
    ensures c.links[l].bandwidthBps > 0
  {
  }

  lemma ResumeCrashes(c: Config, s: State, l: LinkId)
    requires ValidConfig(c) && Sane(c, s) && TasksWait(c, s) && Enabled(c, s, ResumeLinkTask(l))
    ensures Perform(c, s, ResumeLinkTask(l)).crashed <==> FindsLinkDown(s, l)
  {
    hide ValidConfig, Prefer;
    TaskOfferIsSane(c, s, l);
    BandwidthKnown(c, l);
    assert PacerWaits(s.links[l], s.now);
    PreferCrashes(c, s, l, s.links[l].task.offer);
  }

  lemma EnqueueNeverCrashes(s: State, i: nat)
    requires i < |s.log| && s.log[i].node in s.nodes
    ensures EnqueueOutbound(s, i).crashed == s.crashed
  {
  }

  lemma PlaceNeverCrashes(c: Config, s: State, i: nat, roll: Roll)
    requires ValidConfig(c) && i < |s.log| && s.log[i].node in s.nodes && s.log[i].node in c.nodes
    ensures Place(c, s, i, roll).crashed == s.crashed
  {
    hide ValidConfig, IsEndpoint;
    EnqueueNeverCrashes(s, i);
    if roll.Duplicate? {
      var s1 := EnqueueOutbound(s, i);
      var s2 := ArriveDuplicate(s1, s.log[i].node, s.log[i].packet.(id := roll.id));
      hide EnqueueOutbound;
      EnqueueNeverCrashes(s2, |s.log|);
    }
  }

  lemma ForwardNeverCrashes(c: Config, s: State, n: NodeId, p: Packet, roll: Roll, origin: Option<nat>)
    requires ValidConfig(c) && n in s.nodes && n in c.nodes && (origin.Some? ==> origin.value < |s.log|)
    ensures Forward(c, s, n, p, roll, origin).crashed == s.crashed
  {
    hide ValidConfig, Place;
    if NodeUp(s, n) {
      PlaceNeverCrashes(c, Arrive(s, n, p, origin), |s.log|, roll);
    }
  }

  lemma {:induction false} OffersNeverCrash(c: Config, s: State, i: nat, all: seq<LinkId>, links: seq<LinkId>,
                                            slow: seq<bool>)
    requires |slow| == |links| && forall l :: l in links ==> l in s.links && l in c.links
    ensures OfferAll(c, s, i, all, links, slow).crashed == s.crashed
    decreases |links|
  {
    if links != [] {
      var o := Offer(i, all, if slow[0] then c.links[links[0]].extraDelay else 0);
      OffersNeverCrash(c, OfferTo(s, links[0], o), i, all, links[1..], slow[1..]);
    }
  }

  /**
   * The assertions in `send` fail exactly if a task resumes from a yield, has its turn, still owns a
   * packet to send, and its link went down meanwhile. The pacer's assertion never fails; nor does
   * either assertion for a link that need not yield to another.
   */
  lemma AssertionsFailExactly(c: Config, s: State, a: Action)
    requires ValidConfig(c) && Sane(c, s) && TasksWait(c, s) && Enabled(c, s, a)
    ensures a.ResumeLinkTask? ==> (Perform(c, s, a).crashed <==> FindsLinkDown(s, a.link))
    ensures !a.ResumeLinkTask? ==> !Perform(c, s, a).crashed
  {
    hide ValidConfig, Sane, TasksWait, FindsLinkDown, Place, Resume, TakeOffer, Forward, OfferAll, FirstOff, Candidates;
    match a
    case StartLinkTask(l) => StartNeverCrashes(c, s, l);
    case ResumeLinkTask(l) => ResumeCrashes(c, s, l);
    case Create(n, size, id, destination, roll) => CreateNeverCrashes(c, s, a);
    case RunForwarder(l, i, roll) => DeliverNeverCrashes(c, s, a);
    case RunNodeTask(n, slow) => NodeTaskNeverCrashes(c, s, a);
    case _ =>
  }

  lemma FailedTaskIs(c: Config, s: State, a: Action)
    requires ValidConfig(c) && Sane(c, s) && TasksWait(c, s) && Enabled(c, s, a) && Perform(c, s, a).crashed
    ensures a.ResumeLinkTask? && a.link in s.links
    ensures s.links[a.link].task.Yielded? && HasTurn(a.link, s.links[a.link].task.offer) && !LinkUp(s, a.link)
  {
    hide ValidConfig, Sane, TasksWait, Perform, ClearedFromBuffer, Ready, FirstOff;
    AssertionsFailExactly(c, s, a);
  }

  lemma CreateNeverCrashes(c: Config, s: State, a: Action)
    requires ValidConfig(c) && Sane(c, s) && Enabled(c, s, a) && a.Create?
    ensures !Perform(c, s, a).crashed
  {
    hide ValidConfig, Forward;
    var p := Packet(a.id, s.nextNumber, a.size, a.destination);
    ForwardNeverCrashes(c, s.(used := s.used + {p.id} + RollIds(a.roll), nextNumber := s.nextNumber + 1),
                        a.node, p, a.roll, None);
  }

  lemma DeliverNeverCrashes(c: Config, s: State, a: Action)
    requires ValidConfig(c) && Sane(c, s) && Enabled(c, s, a) && a.RunForwarder?
    ensures !Perform(c, s, a).crashed
  {
    hide ValidConfig, Forward;
    ForwardNeverCrashes(c, s.(used := s.used + RollIds(a.roll)), TargetNode(c, a.link), s.log[a.record].packet,
                        a.roll, Some(a.record));
  }

  lemma NodeTaskNeverCrashes(c: Config, s: State, a: Action)
    requires ValidConfig(c) && Sane(c, s) && Enabled(c, s, a) && a.RunNodeTask?
    ensures !Perform(c, s, a).crashed
  {
    hide ValidConfig, OfferAll, Candidates, DirectLinks, AllRoutedLinks;
    var i := s.nodes[a.node].outbound[0];
    var links := Candidates(c, a.node, s.log[i].packet.destination.ip);
    CandidatesStartHere(c, a.node, s.log[i].packet.destination.ip);
    OffersNeverCrash(c, TakeOutbound(s, a.node), i, links, links, a.slow);
  }

  lemma StatusGoesDown(cell: StatusCell)
    ensures UpdateStatus(cell, GoDown).status.Down?
  {
  }

  /** The failing case is real: any task that yielded and has its turn fails if its link goes down before it resumes. */
  lemma DownWhileYieldedFails(c: Config, s: State, l: LinkId)
    requires ValidConfig(c) && Sane(c, s) && TasksWait(c, s) && !s.crashed && l in s.links
    requires s.links[l].task.Yielded? && HasTurn(l, s.links[l].task.offer)
    requires !Handled(s, s.links[l].task.offer)
    requires !ClearedFromBuffer(s, s.log[s.links[l].task.offer.record])
    ensures var s1 := ProcessLinkEvent(s, LinkEvent(l, Some(GoDown)));
      l in c.links && c.links[l].bandwidthBps > 0 && Resume(c, s1, l).crashed
  {
    BandwidthKnown(c, l);
    TaskOfferIsSane(c, s, l);
    PacerIsFree(c, s, l);
    hide ValidConfig, Sane, TasksWait, UpdateStatus, EdgeTime, Prefer, ClearedFromBuffer, Pacing.CanSend;
    StatusGoesDown(s.links[l].status);
    var s1 := ProcessLinkEvent(s, LinkEvent(l, Some(GoDown)));
    var o := s.links[l].task.offer;
    SameClear(s, s1, s.log[o.record]);
    PreferCrashes(c, s1, l, o);
  }

  lemma SameClear(s: State, s1: State, r: Record)
    requires s1.nodes == s.nodes && r.node in s.nodes
    ensures ClearedFromBuffer(s1, r) <==> ClearedFromBuffer(s, r)
  {
  }

  lemma PacerIsFree(c: Config, s: State, l: LinkId)
    requires Sane(c, s) && TasksWait(c, s) && l in s.links && s.links[l].task.Yielded?
    ensures Pacing.CanSend(s.links[l].sendDone, s.now)
    ensures s.nodes.Keys == c.nodes.Keys && s.links.Keys == c.links.Keys
  {
    assert PacerWaits(s.links[l], s.now);
  }

  // ----- The offers that the task of a node makes -----

  /**
   * From `q` to `q1`, an offer of this very record joined the queue of link `l` behind all others for
   * each place `at` which the link has among the candidates, with the extra delay that was rolled there.
   */
  ghost predicate Offered(c: Config, q: seq<Offer>, q1: seq<Offer>, l: LinkId, i: nat, all: seq<LinkId>, slow: seq<bool>,
                          at: seq<nat>)
    requires l in c.links && |slow| == |all| && forall m :: 0 <= m < |at| ==> at[m] < |all|
  {
    && q <= q1 && |q1| == |q| + |at|
    && forall m :: 0 <= m < |at| ==> q1[|q| + m] == Offer(i, all, if slow[at[m]] then c.links[l].extraDelay else 0)
  }

  /** All places of the link in the list, in order. */
  ghost predicate PlacesOf(l: LinkId, links: seq<LinkId>, at: seq<nat>) {
    && (forall m :: 0 <= m < |at| ==> at[m] < |links| && links[at[m]] == l)
    && (forall m, k :: 0 <= m < k < |at| ==> at[m] < at[k])
    && (forall j: nat :: j < |links| && links[j] == l ==> j in at)
  }

  lemma AllPlaces(l: LinkId, links: seq<LinkId>, at: seq<nat>)
    requires PlacesFrom(l, links, 0, at)
    ensures PlacesOf(l, links, at)
  {
  }

  lemma PlacesAfter(l: LinkId, links: seq<LinkId>, from: nat, rest: seq<nat>) returns (at: seq<nat>)
    requires from < |links| && PlacesFrom(l, links, from + 1, rest)
    ensures PlacesFrom(l, links, from, at) && at == (if links[from] == l then [from] else []) + rest
  {
    at := (if links[from] == l then [from] else []) + rest;
  }

  ghost predicate PlacesFrom(l: LinkId, links: seq<LinkId>, from: nat, at: seq<nat>) {
    && (forall m :: 0 <= m < |at| ==> from <= at[m] < |links| && links[at[m]] == l)
    && (forall m, k :: 0 <= m < k < |at| ==> at[m] < at[k])
    && (forall j: nat :: from <= j < |links| && links[j] == l ==> j in at)
  }

  lemma OfferedNext(c: Config, q: seq<Offer>, q1: seq<Offer>, l: LinkId, i: nat, all: seq<LinkId>, slow: seq<bool>,
                    j: nat, rest: seq<nat>)
    requires l in c.links && |slow| == |all| && j < |all| && forall m :: 0 <= m < |rest| ==> rest[m] < |all|
    requires Offered(c, q + [Offer(i, all, if slow[j] then c.links[l].extraDelay else 0)], q1, l, i, all, slow, rest)
    ensures Offered(c, q, q1, l, i, all, slow, [j] + rest)
  {
  }

  lemma OfferedDelays(c: Config, q: seq<Offer>, q1: seq<Offer>, l: LinkId, i: nat, all: seq<LinkId>, slow: seq<bool>,
                      at: seq<nat>)
    requires l in c.links && |slow| == |all| && forall m :: 0 <= m < |at| ==> at[m] < |all|
    requires Offered(c, q, q1, l, i, all, slow, at)
    ensures q <= q1 && forall k :: |q| <= k < |q1| ==> q1[k].extraDelay in {0, c.links[l].extraDelay}
  {
    forall k | |q| <= k < |q1|
      ensures q1[k].extraDelay in {0, c.links[l].extraDelay}
    {
      var m := k - |q|;
      assert q1[|q| + m] == Offer(i, all, if slow[at[m]] then c.links[l].extraDelay else 0);
    }
  }

  predicate AllKnown(c: Config, s: State, links: seq<LinkId>) {
    forall l :: l in links ==> l in s.links && l in c.links
  }

  /** The offers to the candidates from number `from` on. */
  function OffersFrom(c: Config, s: State, i: nat, all: seq<LinkId>, slow: seq<bool>, from: nat): State
    requires |slow| == |all| && from <= |all| && AllKnown(c, s, all)
  {
    OfferAll(c, s, i, all, all[from..], slow[from..])
  }

  /** One more offer: only the queue of its link grows. */
  lemma OffersStep(c: Config, s: State, i: nat, all: seq<LinkId>, slow: seq<bool>, from: nat, l: LinkId)
    returns (s0: State)
    requires |slow| == |all| && from < |all| && AllKnown(c, s, all) && l in s.links && l in c.links
    ensures AllKnown(c, s0, all) && s0 == s.(links := s0.links) && s0.links.Keys == s.links.Keys && l in s0.links
    ensures var o := Offer(i, all, if slow[from] then c.links[l].extraDelay else 0);
      s0.links[l] == s.links[l].(queue := s.links[l].queue + if all[from] == l then [o] else [])
    ensures OffersFrom(c, s, i, all, slow, from) == OffersFrom(c, s0, i, all, slow, from + 1)
  {
    s0 := OfferTo(s, all[from], Offer(i, all, if slow[from] then c.links[all[from]].extraDelay else 0));
    assert all[from..][1..] == all[from + 1..] && slow[from..][1..] == slow[from + 1..];
  }

  /** The offers until `s1` reached link `l` as they should. */
  ghost predicate Reached(c: Config, s: State, s1: State, i: nat, all: seq<LinkId>, slow: seq<bool>, l: LinkId, at: seq<nat>)
    requires l in c.links && l in s.links && |slow| == |all| && forall m :: 0 <= m < |at| ==> at[m] < |all|
  {
    && s1 == s.(links := s1.links) && s1.links.Keys == s.links.Keys
    && s1.links[l] == s.links[l].(queue := s1.links[l].queue)
    && Offered(c, s.links[l].queue, s1.links[l].queue, l, i, all, slow, at)
  }

  lemma ReachedNext(c: Config, s: State, s0: State, s1: State, i: nat, all: seq<LinkId>, slow: seq<bool>, l: LinkId,
                    from: nat, rest: seq<nat>, at: seq<nat>)
    requires l in c.links && l in s.links && |slow| == |all| && from < |all| && l in s0.links
    requires (forall m :: 0 <= m < |rest| ==> rest[m] < |all|) && at == (if all[from] == l then [from] else []) + rest
    requires s0 == s.(links := s0.links) && s0.links.Keys == s.links.Keys && Reached(c, s0, s1, i, all, slow, l, rest)
    requires var o := Offer(i, all, if slow[from] then c.links[l].extraDelay else 0);
      s0.links[l] == s.links[l].(queue := s.links[l].queue + if all[from] == l then [o] else [])
    ensures (forall m :: 0 <= m < |at| ==> at[m] < |all|) && Reached(c, s, s1, i, all, slow, l, at)
  {
    hide Offered;
    if all[from] == l {
      OfferedNext(c, s.links[l].queue, s1.links[l].queue, l, i, all, slow, from, rest);
    } else {
      assert [] + rest == rest && s.links[l].queue + [] == s.links[l].queue;
    }
  }

  lemma {:induction false} OffersReachAll(c: Config, s: State, i: nat, all: seq<LinkId>, slow: seq<bool>, from: nat,
                                          l: LinkId)
    returns (at: seq<nat>)
    requires |slow| == |all| && from <= |all| && AllKnown(c, s, all) && l in s.links && l in c.links
    ensures PlacesFrom(l, all, from, at) && forall m :: 0 <= m < |at| ==> at[m] < |all|
    ensures Reached(c, s, OffersFrom(c, s, i, all, slow, from), i, all, slow, l, at)
    decreases |all| - from
  {
    at := [];
    if from < |all| {
      hide Reached, PlacesFrom, OffersFrom, AllKnown;
      var s0 := OffersStep(c, s, i, all, slow, from, l);
      var rest := OffersReachAll(c, s0, i, all, slow, from + 1, l);
      at := PlacesAfter(l, all, from, rest);
      ReachedNext(c, s, s0, OffersFrom(c, s, i, all, slow, from), i, all, slow, l, from, rest, at);
    } else {
      hide AllKnown;
      assert all[from..] == [];
    }
  }

  /**
   * The task of a node takes the packet that is first in line and offers it to every candidate link,
   * as often as the link is a candidate, with all candidates to prefer to it in their order, and
   * with the link's extra delay just where that was rolled; other links get nothing, and neither
   * does any other packet move.
   */
  lemma EveryCandidateIsOffered(c: Config, s: State, n: NodeId, slow: seq<bool>, l: LinkId) returns (at: seq<nat>)
    requires ValidConfig(c) && n in s.nodes && n in c.nodes && s.links.Keys == c.links.Keys && l in s.links
    requires s.nodes[n].outbound != [] && s.nodes[n].outbound[0] < |s.log|
    requires |slow| == |Candidates(c, n, s.log[s.nodes[n].outbound[0]].packet.destination.ip)|
    ensures var i := s.nodes[n].outbound[0];
      var all := Candidates(c, n, s.log[i].packet.destination.ip);
      var s1 := OfferNext(c, s, n, slow);
      && s1 == s.(nodes := s1.nodes, links := s1.links)
      && s1.nodes == s.nodes[n := s.nodes[n].(outbound := s.nodes[n].outbound[1..])]
      && s1.links.Keys == s.links.Keys && s1.links[l] == s.links[l].(queue := s1.links[l].queue)
      && PlacesOf(l, all, at) && Offered(c, s.links[l].queue, s1.links[l].queue, l, i, all, slow, at)
  {
    hide ValidConfig, Candidates, Addresses, OfferAll, Offered, PlacesFrom, PlacesOf;
    var i := s.nodes[n].outbound[0];
    var all := Candidates(c, n, s.log[i].packet.destination.ip);
    CandidatesStartHere(c, n, s.log[i].packet.destination.ip);
    at := OffersReachAll(c, TakeOutbound(s, n), i, all, slow, 0, l);
    assert all[0..] == all && slow[0..] == slow;
    assert PlacesOf(l, all, at) by { AllPlaces(l, all, at); }
  }
}
