/** The simulator's queues and tasks stay well-formed, and its tasks wait as they should, over every step. */
module Sanity {
  import opened Types
  import opened Network
  import opened Status
  import opened Simulator
  import opened LinkTasks
  import Pacing

  predicate LogKept(log: seq<Record>, log1: seq<Record>) {
    |log| <= |log1| && forall i :: 0 <= i < |log| ==> log1[i].node == log[i].node
  }

  predicate NewNodesKnown(c: Config, log: seq<Record>, log1: seq<Record>) {
    forall i :: |log| <= i < |log1| ==> log1[i].node in c.nodes
  }

  /** A node's queue of buffered packets is as before, or lost its head, or gained a packet of the node. */
  predicate OutboundStep(log: seq<Record>, n: NodeId, before: seq<nat>, after: seq<nat>) {
    || after == before
    || (before != [] && after == before[1..])
    || (|after| == |before| + 1 && after[..|before|] == before
        && after[|before|] < |log| && log[after[|before|]].node == n)
  }

  lemma SaneNodes(c: Config, s: State, s1: State)
    requires Sane(c, s) && s1.links == s.links && s1.nodes.Keys == s.nodes.Keys
    requires LogKept(s.log, s1.log) && NewNodesKnown(c, s.log, s1.log)
    requires forall n :: n in s.nodes ==> OutboundStep(s1.log, n, s.nodes[n].outbound, s1.nodes[n].outbound)
    ensures Sane(c, s1)
  {
    hide Addresses;
    SaneRecords(c, s, s1);
    forall n, k | n in s1.nodes && 0 <= k < |s1.nodes[n].outbound|
      ensures s1.nodes[n].outbound[k] < |s1.log| && s1.log[s1.nodes[n].outbound[k]].node == n
    {
      assert OutboundStep(s1.log, n, s.nodes[n].outbound, s1.nodes[n].outbound);
      var before, after := s.nodes[n].outbound, s1.nodes[n].outbound;
      if |after| == |before| + 1 && k < |before| {
        assert after[k] == before[k];
      }
    }
  }

  lemma SaneRecords(c: Config, s: State, s1: State)
    requires Sane(c, s) && s1.links == s.links
    requires LogKept(s.log, s1.log) && NewNodesKnown(c, s.log, s1.log)
    ensures forall i :: 0 <= i < |s1.log| ==> s1.log[i].node in c.nodes
    ensures forall l, k :: l in s1.links && 0 <= k < |s1.links[l].queue| ==>
      SaneOffer(c, s1.log, l, s1.links[l].queue[k])
    ensures forall l :: l in s1.links && !s1.links[l].task.Idle? ==> SaneOffer(c, s1.log, l, s1.links[l].task.offer)
  {
    hide Addresses;
    forall i | 0 <= i < |s1.log|
      ensures s1.log[i].node in c.nodes
    {
      if i < |s.log| {
        assert s1.log[i].node == s.log[i].node;
      }
    }
    forall l, k | l in s1.links && 0 <= k < |s1.links[l].queue|
      ensures SaneOffer(c, s1.log, l, s1.links[l].queue[k])
    {
      assert SaneOffer(c, s.log, l, s.links[l].queue[k]);
    }
    forall l | l in s1.links && !s1.links[l].task.Idle?
      ensures SaneOffer(c, s1.log, l, s1.links[l].task.offer)
    {
      assert SaneOffer(c, s.log, l, s.links[l].task.offer);
    }
  }

  predicate QueueStep(before: seq<Offer>, after: seq<Offer>) {
    after == before || (before != [] && after == before[1..])
  }

  lemma SaneLink(c: Config, s: State, s1: State, l: LinkId)
    requires Sane(c, s) && l in s.links && s1.links.Keys == s.links.Keys && s1.nodes.Keys == s.nodes.Keys
    requires LogKept(s.log, s1.log) && |s1.log| == |s.log|
    requires forall n :: n in s.nodes ==> s1.nodes[n].outbound == s.nodes[n].outbound
    requires forall m :: m in s.links && m != l ==> s1.links[m] == s.links[m]
    requires QueueStep(s.links[l].queue, s1.links[l].queue)
    requires !s1.links[l].task.Idle? ==> SaneOffer(c, s.log, l, s1.links[l].task.offer)
    ensures Sane(c, s1)
  {
    hide Addresses;
    forall m, k | m in s1.links && 0 <= k < |s1.links[m].queue|
      ensures SaneOffer(c, s1.log, m, s1.links[m].queue[k])
    {
      if m == l && s1.links[l].queue != s.links[l].queue {
        assert SaneOffer(c, s.log, l, s.links[l].queue[k + 1]);
      } else {
        assert SaneOffer(c, s.log, m, s.links[m].queue[k]);
      }
    }
    forall m | m in s1.links && !s1.links[m].task.Idle?
      ensures SaneOffer(c, s1.log, m, s1.links[m].task.offer)
    {
      if m != l {
        assert SaneOffer(c, s.log, m, s.links[m].task.offer);
      }
    }
  }

  /** Nothing that a waiting task relies on changed; time may have passed. */
  predicate WaitsKept(s: State, s1: State) {
    && s1.links == s.links && s1.nodes.Keys == s.nodes.Keys && s.now <= s1.now
    && (forall n :: n in s.nodes ==> s1.nodes[n].status == s.nodes[n].status)
    && LogKept(s.log, s1.log)
  }

  lemma TasksStillWait(c: Config, s: State, s1: State)
    requires Sane(c, s) && TasksWait(c, s) && Sane(c, s1) && WaitsKept(s, s1)
    ensures TasksWait(c, s1)
  {
    hide Addresses;
    forall l | l in s1.links
      ensures PacerWaits(s1.links[l], s1.now) && NotifiersMade(s1, s1.links[l])
    {
      assert PacerWaits(s.links[l], s.now) && NotifiersMade(s, s.links[l]);
    }
  }

  // ----- Forwarding -----

  /** The parts of the state that placing a packet leaves alone. */
  predicate OnlyPlaces(c: Config, s: State, s1: State) {
    WaitsKept(s, s1) && s1.now == s.now && s1.used == s.used && NewNodesKnown(c, s.log, s1.log)
  }

  lemma EnqueueSane(c: Config, s: State, i: nat)
    requires Sane(c, s) && i < |s.log| && s.log[i].node in s.nodes
    ensures Sane(c, EnqueueOutbound(s, i)) && OnlyPlaces(c, s, EnqueueOutbound(s, i))
    ensures |EnqueueOutbound(s, i).log| == |s.log|
    ensures EnqueueOutbound(s, i).log[i].fate.Buffered? || EnqueueOutbound(s, i).log[i].fate.Dropped?
    ensures forall j :: 0 <= j < |s.log| && j != i ==> EnqueueOutbound(s, i).log[j] == s.log[j]
  {
    hide Sane;
    SaneNodes(c, s, EnqueueOutbound(s, i));
  }

  lemma ArriveSane(c: Config, s: State, n: NodeId, p: Packet, origin: Option<nat>)
    requires Sane(c, s) && n in c.nodes && (origin.Some? ==> origin.value < |s.log|)
    ensures Sane(c, Arrive(s, n, p, origin)) && OnlyPlaces(c, s, Arrive(s, n, p, origin))
    ensures Sane(c, ArriveWhileDown(s, n, p, origin)) && OnlyPlaces(c, s, ArriveWhileDown(s, n, p, origin))
    ensures Sane(c, ArriveDuplicate(s, n, p)) && OnlyPlaces(c, s, ArriveDuplicate(s, n, p))
  {
    hide Sane;
    SaneNodes(c, s, Arrive(s, n, p, origin));
    SaneNodes(c, s, ArriveWhileDown(s, n, p, origin));
    SaneNodes(c, s, ArriveDuplicate(s, n, p));
  }

  lemma FateSane(c: Config, s: State, i: nat, f: Fate)
    requires Sane(c, s) && i < |s.log|
    ensures Sane(c, SetFate(s, i, f)) && OnlyPlaces(c, s, SetFate(s, i, f))
  {
    hide Sane;
    SaneNodes(c, s, SetFate(s, i, f));
  }

  lemma DropSane(c: Config, s: State, i: nat, reason: DropReason)
    requires Sane(c, s) && i < |s.log|
    ensures Sane(c, Drop(s, i, reason)) && OnlyPlaces(c, s, Drop(s, i, reason))
  {
    hide Sane;
    SaneNodes(c, s, Drop(s, i, reason));
  }

  lemma OnlyPlacesTransitive(c: Config, s: State, s1: State, s2: State)
    requires OnlyPlaces(c, s, s1) && OnlyPlaces(c, s1, s2)
    ensures OnlyPlaces(c, s, s2)
  {
    forall i | |s.log| <= i < |s2.log|
      ensures s2.log[i].node in c.nodes
    {
      if i < |s1.log| {
        assert s2.log[i].node == s1.log[i].node;
      }
    }
  }

  lemma KnownNode(c: Config, s: State, i: nat)
    requires Sane(c, s) && i < |s.log|
    ensures s.log[i].node in c.nodes && s.log[i].node in s.nodes
  {
  }

  lemma PlaceSane(c: Config, s: State, i: nat, roll: Roll)
    requires ValidConfig(c) && Sane(c, s) && i < |s.log| && s.log[i].node in s.nodes && s.log[i].node in c.nodes
    ensures Sane(c, Place(c, s, i, roll)) && OnlyPlaces(c, s, Place(c, s, i, roll))
  {
    hide ValidConfig, Sane, OnlyPlaces, IsEndpoint, EnqueueOutbound, Drop, SetFate;
    FateSane(c, s, i, AtApp);
    DropSane(c, s, i, Random);
    EnqueueSane(c, s, i);
    if roll.Duplicate? {
      var s1 := EnqueueOutbound(s, i);
      var n, p := s.log[i].node, s.log[i].packet.(id := roll.id);
      var s2 := ArriveDuplicate(s1, n, p);
      ArriveSane(c, s1, n, p, None);
      KnownNode(c, s2, |s.log|);
      EnqueueSane(c, s2, |s.log|);
      OnlyPlacesTransitive(c, s, s1, s2);
      OnlyPlacesTransitive(c, s, s2, EnqueueOutbound(s2, |s.log|));
    }
  }

  lemma ForwardSane(c: Config, s: State, n: NodeId, p: Packet, roll: Roll, origin: Option<nat>)
    requires ValidConfig(c) && Sane(c, s) && n in s.nodes && n in c.nodes && (origin.Some? ==> origin.value < |s.log|)
    ensures Sane(c, Forward(c, s, n, p, roll, origin)) && OnlyPlaces(c, s, Forward(c, s, n, p, roll, origin))
  {
    hide ValidConfig, Sane, OnlyPlaces, Place;
    ArriveSane(c, s, n, p, origin);
    if NodeUp(s, n) {
      var s1 := Arrive(s, n, p, origin);
      KnownNode(c, s1, |s.log|);
      PlaceSane(c, s1, |s.log|, roll);
      OnlyPlacesTransitive(c, s, s1, Place(c, s1, |s.log|, roll));
    }
  }

  // ----- Offers -----

  lemma OfferToSane(c: Config, s: State, l: LinkId, o: Offer)
    requires Sane(c, s) && TasksWait(c, s) && l in s.links && SaneOffer(c, s.log, l, o)
    ensures Sane(c, OfferTo(s, l, o)) && TasksWait(c, OfferTo(s, l, o))
  {
    hide Addresses;
    var s1 := OfferTo(s, l, o);
    forall m, k | m in s1.links && 0 <= k < |s1.links[m].queue|
      ensures SaneOffer(c, s1.log, m, s1.links[m].queue[k])
    {
      if k < |s.links[m].queue| {
        assert SaneOffer(c, s.log, m, s.links[m].queue[k]);
      }
    }
    forall m | m in s1.links && !s1.links[m].task.Idle?
      ensures SaneOffer(c, s1.log, m, s1.links[m].task.offer)
    {
      assert SaneOffer(c, s.log, m, s.links[m].task.offer);
    }
    forall m | m in s1.links
      ensures PacerWaits(s1.links[m], s1.now) && NotifiersMade(s1, s1.links[m])
    {
      assert PacerWaits(s.links[m], s.now) && NotifiersMade(s, s.links[m]);
    }
  }

  lemma {:induction false} OfferAllSane(c: Config, s: State, i: nat, all: seq<LinkId>, links: seq<LinkId>,
                                        slow: seq<bool>)
    requires Sane(c, s) && TasksWait(c, s) && |slow| == |links| && i < |s.log| && s.log[i].node in c.nodes
    requires forall l :: l in links ==>
      l in s.links && l in c.links && c.links[l].source in Addresses(c.nodes[s.log[i].node])
    ensures Sane(c, OfferAll(c, s, i, all, links, slow)) && TasksWait(c, OfferAll(c, s, i, all, links, slow))
    decreases |links|
  {
    hide Sane, TasksWait, Addresses;
    if links != [] {
      var o := Offer(i, all, if slow[0] then c.links[links[0]].extraDelay else 0);
      OfferToSane(c, s, links[0], o);
      OfferAllSane(c, OfferTo(s, links[0], o), i, all, links[1..], slow[1..]);
    }
  }

  // ----- Link tasks -----

  /** The task of link `l` moved on; everything other tasks rely on is as before. */
  predicate OnlyTask(s: State, s1: State, l: LinkId) {
    && l in s.links && s1.links.Keys == s.links.Keys && s1.nodes.Keys == s.nodes.Keys && s1.now == s.now
    && LogKept(s.log, s1.log) && |s1.log| == |s.log|
    && (forall n :: n in s.nodes ==>
          s1.nodes[n].outbound == s.nodes[n].outbound && s1.nodes[n].status == s.nodes[n].status)
    && (forall m :: m in s.links && m != l ==> s1.links[m] == s.links[m])
    && s1.links[l].status == s.links[l].status
  }

  lemma TaskWaits(c: Config, s: State, s1: State, l: LinkId)
    requires Sane(c, s) && TasksWait(c, s) && Sane(c, s1) && OnlyTask(s, s1, l)
    requires PacerWaits(s1.links[l], s1.now) && NotifiersMade(s1, s1.links[l])
    ensures TasksWait(c, s1)
  {
    hide Addresses;
    forall m | m in s1.links
      ensures PacerWaits(s1.links[m], s1.now) && NotifiersMade(s1, s1.links[m])
    {
      if m != l {
        assert PacerWaits(s.links[m], s.now) && NotifiersMade(s, s.links[m]);
      }
    }
  }

  lemma PreferOnlyTask(c: Config, s: State, l: LinkId, o: Offer)
    requires l in s.links && l in c.links && c.links[l].bandwidthBps > 0
    requires o.record < |s.log| && s.log[o.record].node in s.nodes
    requires Handled(s, o) || Pacing.CanSend(s.links[l].sendDone, s.now)
    ensures var s1 := Prefer(c, s, l, o);
      && OnlyTask(s, s1, l) && s1.links[l].queue == s.links[l].queue
      && (s1.links[l].task.Idle? || (s1.links[l].task.Yielded? && s1.links[l].task.offer.record == o.record))
      && PacerWaits(s1.links[l], s1.now)
  {
    hide Pacing.TrackSend, ClearedFromBuffer;
    if o.preferred != [] && o.preferred[0] != l && !Handled(s, o) {
    } else {
      hide Claim;
      ClaimOnlyTask(c, s, l, o);
    }
  }

  lemma ClaimOnlyTask(c: Config, s: State, l: LinkId, o: Offer)
    requires l in s.links && l in c.links && c.links[l].bandwidthBps > 0
    requires o.record < |s.log| && s.log[o.record].node in s.nodes
    ensures var s1 := Claim(c, s, l, o);
      OnlyTask(s, s1, l) && s1.links[l].queue == s.links[l].queue && s1.links[l].task.Idle?
  {
    hide Pacing.TrackSend, Pacing.CanSend, ClearedFromBuffer;
  }

  /** Whatever the task does next, it does it with the offer it has, and waits as it should. */
  predicate MovesOn(s: State, s1: State, l: LinkId, o: Offer) {
    && OnlyTask(s, s1, l) && s1.links[l].queue == s.links[l].queue
    && (!s1.links[l].task.Idle? ==> s1.links[l].task.offer.record == o.record)
    && PacerWaits(s1.links[l], s1.now)
    && (o.record < |s.log| && s.log[o.record].node in s.nodes ==>
          match s1.links[l].task
          case AwaitingLink(_, notifier) => s.links[l].status.status == Down(notifier)
          case AwaitingNode(_, notifier) => s.nodes[s.log[o.record].node].status.status == Down(notifier)
          case _ => true)
  }

  lemma PreferMovesOn(c: Config, s: State, l: LinkId, o: Offer)
    requires l in s.links && l in c.links && c.links[l].bandwidthBps > 0
    requires o.record < |s.log| && s.log[o.record].node in s.nodes
    requires Handled(s, o) || Pacing.CanSend(s.links[l].sendDone, s.now)
    ensures MovesOn(s, Prefer(c, s, l, o), l, o)
  {
    hide Prefer, Handled, Pacing.CanSend;
    PreferOnlyTask(c, s, l, o);
  }

  lemma WaitMovesOn(s: State, l: LinkId, o: Offer)
    requires l in s.links && o.record < |s.log| && s.log[o.record].node in s.nodes
    requires Pacing.CanSend(s.links[l].sendDone, s.now)
    ensures var node := s.nodes[s.log[o.record].node].status.status;
      node.Down? ==> MovesOn(s, SetTask(s, l, AwaitingNode(o, node.notifier)), l, o)
    ensures var link := s.links[l].status.status;
      link.Down? ==> MovesOn(s, SetTask(s, l, AwaitingLink(o, link.notifier)), l, o)
  {
  }

  lemma AwaitMovesOn(c: Config, s: State, l: LinkId, o: Offer)
    requires l in s.links && l in c.links && c.links[l].bandwidthBps > 0
    requires o.record < |s.log| && s.log[o.record].node in s.nodes
    requires Pacing.CanSend(s.links[l].sendDone, s.now)
    ensures MovesOn(s, AwaitNode(c, s, l, o), l, o) && MovesOn(s, AwaitLink(c, s, l, o), l, o)
  {
    PreferMovesOn(c, s, l, o);
    WaitMovesOn(s, l, o);
    hide Prefer, MovesOn, SetTask;
  }

  lemma ResumeMovesOn(c: Config, s: State, l: LinkId)
    requires l in s.links && l in c.links && c.links[l].bandwidthBps > 0
    requires var t := s.links[l].task; !t.Idle? && t.offer.record < |s.log| && s.log[t.offer.record].node in s.nodes
    requires PacerWaits(s.links[l], s.now) && Ready(s, l)
    ensures MovesOn(s, Resume(c, s, l), l, s.links[l].task.offer)
  {
    hide Prefer, AwaitLink, AwaitNode, MovesOn;
    var o := s.links[l].task.offer;
    if Handled(s, o) {
      PreferMovesOn(c, s, l, o);
    } else {
      PreferMovesOn(c, s, l, o);
      AwaitMovesOn(c, s, l, o);
    }
  }

  lemma MovesOnSane(c: Config, s: State, s1: State, l: LinkId, o: Offer)
    requires Sane(c, s) && TasksWait(c, s) && l in s.links && SaneOffer(c, s.log, l, o)
    requires MovesOn(s, s1, l, o)
    ensures Sane(c, s1) && TasksWait(c, s1)
  {
    hide Addresses;
    SaneLink(c, s, s1, l);
    assert ValidCell(s.links[l].status) && ValidCell(s.nodes[s.log[o.record].node].status);
    TaskWaits(c, s, s1, l);
  }

  function PopOffer(s: State, l: LinkId): State
    requires l in s.links && s.links[l].queue != []
  {
    s.(links := s.links[l := s.links[l].(queue := s.links[l].queue[1..])])
  }

  lemma PopSane(c: Config, s: State, l: LinkId)
    requires Sane(c, s) && TasksWait(c, s) && l in s.links && s.links[l].task.Idle? && s.links[l].queue != []
    ensures Sane(c, PopOffer(s, l)) && TasksWait(c, PopOffer(s, l))
  {
    hide SaneOffer;
    SaneLink(c, s, PopOffer(s, l), l);
    TaskWaits(c, s, PopOffer(s, l), l);
  }

  lemma SleepMovesOn(s: State, l: LinkId, o: Offer)
    requires l in s.links
    ensures var wait := Pacing.DurationUntilCanSend(s.links[l].sendDone, s.now);
      MovesOn(s, SetTask(s, l, Sleeping(o, s.now + wait)), l, o)
  {
  }

  lemma StartMovesOn(c: Config, s: State, l: LinkId)
    requires l in s.links && l in c.links && c.links[l].bandwidthBps > 0
    requires s.links[l].task.Idle? && s.links[l].queue != []
    requires s.links[l].queue[0].record < |s.log| && s.log[s.links[l].queue[0].record].node in s.nodes
    ensures MovesOn(PopOffer(s, l), TakeOffer(c, s, l), l, s.links[l].queue[0])
  {
    hide Prefer, MovesOn;
    var s1 := PopOffer(s, l);
    var o := s.links[l].queue[0];
    if HasBandwidthAvailable(s.links[l], s.now) {
      PreferMovesOn(c, s1, l, o);
    } else {
      SleepMovesOn(s1, l, o);
    }
  }

  lemma StartSane(c: Config, s: State, l: LinkId)
    requires ValidConfig(c) && Sane(c, s) && TasksWait(c, s) && l in s.links
    requires s.links[l].task.Idle? && s.links[l].queue != []
    ensures l in c.links && c.links[l].bandwidthBps > 0
    ensures s.links[l].queue[0].record < |s.log| && s.log[s.links[l].queue[0].record].node in s.nodes
    ensures Sane(c, TakeOffer(c, s, l)) && TasksWait(c, TakeOffer(c, s, l))
  {
    QueuedOfferIsSane(c, s, l);
    BandwidthKnown(c, l);
    hide ValidConfig, Addresses, Prefer, MovesOn, TasksWait, TakeOffer;
    StartMovesOn(c, s, l);
    PopSane(c, s, l);
    MovesOnSane(c, PopOffer(s, l), TakeOffer(c, s, l), l, s.links[l].queue[0]);
  }

  lemma ResumeSane(c: Config, s: State, l: LinkId)
    requires ValidConfig(c) && Sane(c, s) && TasksWait(c, s) && l in s.links && Ready(s, l)
    ensures l in c.links && c.links[l].bandwidthBps > 0 && !s.links[l].task.Idle?
    ensures Sane(c, Resume(c, s, l)) && TasksWait(c, Resume(c, s, l))
  {
    TaskOfferIsSane(c, s, l);
    BandwidthKnown(c, l);
    assert PacerWaits(s.links[l], s.now);
    hide ValidConfig, Resume, MovesOn;
    ResumeMovesOn(c, s, l);
    MovesOnSane(c, s, Resume(c, s, l), l, s.links[l].task.offer);
  }

  // ----- Events -----

  lemma UpdateMakesMore(cell: StatusCell, update: UpDown)
    ensures cell.made <= UpdateStatus(cell, update).made
  {
  }

  lemma LinkEventSane(c: Config, s: State, e: LinkEvent)
    requires Sane(c, s) && TasksWait(c, s) && e.link in s.links
    ensures Sane(c, ProcessLinkEvent(s, e)) && TasksWait(c, ProcessLinkEvent(s, e))
  {
    hide Addresses, UpdateStatus, EdgeTime;
    var s1 := ProcessLinkEvent(s, e);
    SaneLinkStatus(c, s, s1, e.link);
    if e.status.Some? {
      UpdateMakesMore(s.links[e.link].status, e.status.value);
    }
    forall l | l in s1.links
      ensures PacerWaits(s1.links[l], s1.now) && NotifiersMade(s1, s1.links[l]) && ValidCell(s1.links[l].status)
    {
      assert PacerWaits(s.links[l], s.now) && NotifiersMade(s, s.links[l]) && ValidCell(s.links[l].status);
    }
  }

  lemma SaneLinkStatus(c: Config, s: State, s1: State, l: LinkId)
    requires Sane(c, s) && l in s.links && s1.links.Keys == s.links.Keys && s1.nodes == s.nodes && s1.log == s.log
    requires forall m :: m in s.links ==> s1.links[m].queue == s.links[m].queue && s1.links[m].task == s.links[m].task
    ensures Sane(c, s1)
  {
    hide SaneOffer;
  }

  lemma NodeEventSane(c: Config, s: State, e: NodeEvent)
    requires Sane(c, s) && TasksWait(c, s) && e.node in s.nodes
    ensures Sane(c, ProcessNodeEvent(s, e)) && TasksWait(c, ProcessNodeEvent(s, e))
  {
    hide Addresses, UpdateStatus;
    var s1 := ProcessNodeEvent(s, e);
    SaneNodes(c, s, s1);
    if e.status.Some? {
      UpdateMakesMore(s.nodes[e.node].status, e.status.value);
    }
    forall l | l in s1.links
      ensures PacerWaits(s1.links[l], s1.now) && NotifiersMade(s1, s1.links[l])
    {
      assert PacerWaits(s.links[l], s.now) && NotifiersMade(s, s.links[l]);
    }
    forall n | n in s1.nodes
      ensures ValidCell(s1.nodes[n].status)
    {
      assert ValidCell(s.nodes[n].status);
    }
  }
}
