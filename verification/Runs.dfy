/** Every action of the simulator keeps the verifier in agreement, and so does every run. */
module Runs {
  import opened Types
  import opened Network
  import opened Status
  import opened Simulator
  import opened NodeReplay
  import opened Replay
  import opened Ledger
  import opened Agreement
  import opened AgreementSteps
  import opened AgreementMoves
  import opened AgreementRuns
  import opened LinkTasks
  import opened Sanity
  import Pacing

  // ----- Placing a packet -----

  predicate AtRestBut(log: seq<Record>, i: nat) {
    forall j :: 0 <= j < |log| && j != i ==> !log[j].fate.Arriving?
  }

  predicate FreshId(log: seq<Record>, id: PacketId) {
    forall i :: 0 <= i < |log| ==> log[i].packet.id != id
  }

  lemma PresentAgrees(c: Config, order: seq<NodeId>, s: State)
    requires ValidConfig(c) && Tracked(c, order, s)
    ensures Replays(c, order, s) && Agrees(c, s, Present(c, order, s))
    ensures s.nodes.Keys == c.nodes.Keys && s.links.Keys == c.links.Keys
  {
    hide ValidConfig;
  }

  lemma EnqueueTracked(c: Config, order: seq<NodeId>, s: State, i: nat)
    requires ValidConfig(c) && Tracked(c, order, s)
    requires i < |s.log| && s.log[i].fate.Arriving? && s.log[i].node in s.nodes
    ensures Tracked(c, order, EnqueueOutbound(s, i))
  {
    hide ValidConfig, Tracked, Replays, Agrees, Present, StepAgrees;
    PresentAgrees(c, order, s);
    var r := Present(c, order, s);
    if s.log[i].packet.size <= s.nodes[s.log[i].node].available {
      ReserveAgrees(c, s, r, i);
      SilentTracked(c, order, s, Reserve(s, i));
    } else {
      DropTracked(c, order, s, i, BufferFull);
    }
  }

  lemma DropTracked(c: Config, order: seq<NodeId>, s: State, i: nat, reason: DropReason)
    requires ValidConfig(c) && Tracked(c, order, s) && i < |s.log|
    requires if reason.BufferCleared? then s.log[i].fate.Buffered? else s.log[i].fate.Arriving?
    ensures Tracked(c, order, Drop(s, i, reason))
  {
    hide ValidConfig, Tracked, Agrees, Present, StepAgrees, ReplayTrace;
    PresentAgrees(c, order, s);
    PresentTime(c, order, s);
    DropAgrees(c, s, Present(c, order, s), i, reason);
    EmittedTracked(c, order, s, Drop(s, i, reason), PacketDropped(s.log[i].packet.id, s.log[i].node, reason));
  }

  lemma PresentTime(c: Config, order: seq<NodeId>, s: State)
    requires ValidConfig(c) && Replays(c, order, s)
    ensures WellFormed(MetaOf(c), Present(c, order, s)) && Present(c, order, s).lastStepTime == s.now
  {
    hide ValidConfig, WellFormed, ReplayTrace, ValidOrder, MetaOf, CheckUsage;
  }

  lemma DuplicateTracked(c: Config, order: seq<NodeId>, s: State, n: NodeId, p: Packet)
    requires ValidConfig(c) && Tracked(c, order, s)
    requires n in c.nodes && n in s.nodes && NodeUp(s, n) && FreshId(s.log, p.id) && p.id in s.used
    ensures Tracked(c, order, ArriveDuplicate(s, n, p))
  {
    hide ValidConfig, Tracked, Agrees, Present, StepAgrees, ReplayTrace;
    PresentAgrees(c, order, s);
    PresentTime(c, order, s);
    ArriveDuplicateAgrees(c, s, Present(c, order, s), n, p);
    EmittedTracked(c, order, s, ArriveDuplicate(s, n, p), PacketDuplicated(p.id, p.number, p.size, n));
  }

  lemma ToAppTracked(c: Config, order: seq<NodeId>, s: State, i: nat)
    requires ValidConfig(c) && Tracked(c, order, s) && i < |s.log| && s.log[i].fate.Arriving?
    requires s.log[i].node in c.nodes && c.nodes[s.log[i].node].kind.Host?
    ensures Tracked(c, order, SetFate(s, i, AtApp))
  {
    hide ValidConfig, Tracked, Agrees, Present, Replays;
    PresentAgrees(c, order, s);
    KeepAgrees(c, s, Present(c, order, s), i, AtApp);
    SilentTracked(c, order, s, SetFate(s, i, AtApp));
  }

  /** A roll that duplicates comes with an id that no record has yet. */
  predicate RollIsFresh(s: State, roll: Roll) {
    roll.Duplicate? ==> FreshId(s.log, roll.id) && roll.id in s.used
  }

  lemma PlaceTracked(c: Config, order: seq<NodeId>, s: State, i: nat, roll: Roll)
    requires ValidConfig(c) && Tracked(c, order, s) && Sane(c, s)
    requires i < |s.log| && s.log[i].node in s.nodes && s.log[i].node in c.nodes
    requires s.log[i].fate.Arriving? && NodeUp(s, s.log[i].node) && RollIsFresh(s, roll)
    ensures Tracked(c, order, Place(c, s, i, roll))
  {
    hide ValidConfig, Tracked, Sane, EnqueueOutbound;
    var n, p := s.log[i].node, s.log[i].packet;
    if IsEndpoint(c, n, p.destination) {
      ToAppTracked(c, order, s, i);
    } else {
      match roll
      case Lose => DropTracked(c, order, s, i, Random);
      case Keep => EnqueueTracked(c, order, s, i);
      case Duplicate(id) =>
        var s1 := EnqueueOutbound(s, i);
        EnqueueTracked(c, order, s, i);
        EnqueueSane(c, s, i);
        EnqueueKeepsPackets(s, i);
        DuplicateTracked(c, order, s1, n, p.(id := id));
        var s2 := ArriveDuplicate(s1, n, p.(id := id));
        EnqueueTracked(c, order, s2, |s.log|);
    }
  }

  lemma EnqueueKeepsPackets(s: State, i: nat)
    requires i < |s.log| && s.log[i].node in s.nodes
    ensures var s1 := EnqueueOutbound(s, i);
      && |s1.log| == |s.log| && s1.used == s.used
      && (forall j :: 0 <= j < |s.log| ==> s1.log[j].packet == s.log[j].packet)
  {
  }

  lemma PlaceAtRest(c: Config, s: State, i: nat, roll: Roll)
    requires ValidConfig(c) && Sane(c, s) && AtRestBut(s.log, i)
    requires i < |s.log| && s.log[i].node in s.nodes && s.log[i].node in c.nodes
    ensures AtRest(Place(c, s, i, roll).log)
  {
    hide ValidConfig, Sane, EnqueueOutbound, IsEndpoint;
    EnqueueSane(c, s, i);
    if roll.Duplicate? {
      var s1 := EnqueueOutbound(s, i);
      var n, p := s.log[i].node, s.log[i].packet.(id := roll.id);
      ArriveSane(c, s1, n, p, None);
      EnqueueSane(c, ArriveDuplicate(s1, n, p), |s.log|);
    }
  }

  // ----- Forwarding -----

  lemma CreateUpTracked(c: Config, order: seq<NodeId>, s: State, n: NodeId, p: Packet)
    requires ValidConfig(c) && Tracked(c, order, s) && n in c.nodes && n in s.nodes && NodeUp(s, n)
    requires c.nodes[n].kind.Host? && FreshId(s.log, p.id) && p.id in s.used
    ensures Tracked(c, order, Arrive(s, n, p, None))
  {
    hide ValidConfig, Tracked, Agrees, Present, StepAgrees, ReplayTrace;
    PresentAgrees(c, order, s);
    PresentTime(c, order, s);
    ArriveNewAgrees(c, s, Present(c, order, s), n, p);
    EmittedTracked(c, order, s, Arrive(s, n, p, None), PacketInNode(p.id, p.number, p.size, n, false));
  }

  lemma CreateDownTracked(c: Config, order: seq<NodeId>, s: State, n: NodeId, p: Packet)
    requires ValidConfig(c) && Tracked(c, order, s) && n in c.nodes && n in s.nodes && !NodeUp(s, n)
    requires c.nodes[n].kind.Host? && FreshId(s.log, p.id) && p.id in s.used
    ensures Tracked(c, order, ArriveWhileDown(s, n, p, None))
  {
    hide ValidConfig, Tracked, Agrees, Present, StepAgrees, ReplayTrace;
    PresentAgrees(c, order, s);
    PresentTime(c, order, s);
    CreateWhileDownAgrees(c, s, Present(c, order, s), n, p);
    EmittedTracked(c, order, s, ArriveWhileDown(s, n, p, None), PacketInNode(p.id, p.number, p.size, n, true));
  }

  lemma CreateTracked(c: Config, order: seq<NodeId>, s: State, n: NodeId, p: Packet, roll: Roll)
    requires ValidConfig(c) && Tracked(c, order, s) && Sane(c, s) && AtRest(s.log)
    requires n in c.nodes && n in s.nodes && c.nodes[n].kind.Host?
    requires FreshId(s.log, p.id) && p.id in s.used && RollIsFresh(s, roll) && p.id !in RollIds(roll)
    ensures Tracked(c, order, Forward(c, s, n, p, roll, None)) && AtRest(Forward(c, s, n, p, roll, None).log)
  {
    hide ValidConfig, Tracked, Sane, Place;
    if NodeUp(s, n) {
      var s1 := Arrive(s, n, p, None);
      CreateUpTracked(c, order, s, n, p);
      ArriveSane(c, s, n, p, None);
      PlaceTracked(c, order, s1, |s.log|, roll);
      PlaceAtRest(c, s1, |s.log|, roll);
    } else {
      CreateDownTracked(c, order, s, n, p);
    }
  }

  lemma LandUpTracked(c: Config, order: seq<NodeId>, s: State, l: LinkId, i: nat)
    requires ValidConfig(c) && Tracked(c, order, s) && Landing(c, s, l, i) && NodeUp(s, TargetNode(c, l))
    ensures Tracked(c, order, Arrive(s, TargetNode(c, l), s.log[i].packet, Some(i)))
  {
    hide ValidConfig, Tracked, Agrees, Present, StepAgrees, ReplayTrace;
    PresentAgrees(c, order, s);
    PresentTime(c, order, s);
    var n, p := TargetNode(c, l), s.log[i].packet;
    ArriveFromLinkAgrees(c, s, Present(c, order, s), l, i);
    EmittedTracked(c, order, s, Arrive(s, n, p, Some(i)), PacketInNode(p.id, p.number, p.size, n, false));
  }

  lemma LandDownTracked(c: Config, order: seq<NodeId>, s: State, l: LinkId, i: nat)
    requires ValidConfig(c) && Tracked(c, order, s) && Landing(c, s, l, i) && !NodeUp(s, TargetNode(c, l))
    ensures Tracked(c, order, ArriveWhileDown(s, TargetNode(c, l), s.log[i].packet, Some(i)))
  {
    hide ValidConfig, Tracked, Agrees, Present, StepAgrees, ReplayTrace;
    PresentAgrees(c, order, s);
    PresentTime(c, order, s);
    var n, p := TargetNode(c, l), s.log[i].packet;
    DropOnArrivalAgrees(c, s, Present(c, order, s), l, i);
    EmittedTracked(c, order, s, ArriveWhileDown(s, n, p, Some(i)), PacketInNode(p.id, p.number, p.size, n, true));
  }

  lemma ArrivedRoll(c: Config, s: State, n: NodeId, i: nat, roll: Roll)
    requires i < |s.log| && AtRest(s.log) && RollIsFresh(s, roll)
    ensures var s1 := Arrive(s, n, s.log[i].packet, Some(i));
      RollIsFresh(s1, roll) && AtRestBut(s1.log, |s.log|)
  {
  }

  lemma LandTracked(c: Config, order: seq<NodeId>, s: State, l: LinkId, i: nat, roll: Roll)
    requires ValidConfig(c) && Tracked(c, order, s) && Sane(c, s) && AtRest(s.log)
    requires Landing(c, s, l, i) && RollIsFresh(s, roll)
    ensures var s1 := Forward(c, s, TargetNode(c, l), s.log[i].packet, roll, Some(i));
      Tracked(c, order, s1) && AtRest(s1.log)
  {
    hide ValidConfig, Tracked, Sane, Place, RollIsFresh, AtRestBut;
    var n, p := TargetNode(c, l), s.log[i].packet;
    if NodeUp(s, n) {
      var s1 := Arrive(s, n, p, Some(i));
      LandUpTracked(c, order, s, l, i);
      ArriveSane(c, s, n, p, Some(i));
      ArrivedRoll(c, s, n, i, roll);
      PlaceTracked(c, order, s1, |s.log|, roll);
      PlaceAtRest(c, s1, |s.log|, roll);
    } else {
      LandDownTracked(c, order, s, l, i);
    }
  }

  lemma DeliverTracked(c: Config, order: seq<NodeId>, s: State, l: LinkId, i: nat, roll: Roll)
    requires ValidConfig(c) && Tracked(c, order, s) && Sane(c, s) && AtRest(s.log)
    requires l in c.links && l in s.links && TargetNode(c, l) in s.nodes
    requires i < |s.log| && s.log[i].fate.InTransit? && s.log[i].fate.link == l && s.log[i].fate.arrival <= s.now
    requires RollIsFresh(s, roll)
    ensures Tracked(c, order, Deliver(c, s, l, i, roll)) && AtRest(Deliver(c, s, l, i, roll).log)
  {
    hide ValidConfig, Tracked, Sane, Agrees, Present, StepAgrees, ReplayTrace, Forward;
    if After(s.links[l].lastDown, s.log[i].fate.sent) {
      PresentAgrees(c, order, s);
      PresentTime(c, order, s);
      LoseAgrees(c, s, Present(c, order, s), l, i);
      EmittedTracked(c, order, s, Lost(s, l, i), PacketLostInTransit(s.log[i].packet.id, l));
    } else {
      LandTracked(c, order, s, l, i, roll);
    }
  }

  lemma ReadTracked(c: Config, order: seq<NodeId>, s: State, i: nat)
    requires ValidConfig(c) && Tracked(c, order, s) && AtRest(s.log) && i < |s.log| && s.log[i].fate.AtApp?
    ensures Tracked(c, order, ReadByHost(s, i)) && AtRest(ReadByHost(s, i).log)
  {
    hide ValidConfig, Tracked, Agrees, Present, StepAgrees, ReplayTrace;
    PresentAgrees(c, order, s);
    PresentTime(c, order, s);
    var rec := s.log[i];
    ReadAgrees(c, s, Present(c, order, s), i);
    EmittedTracked(c, order, s, ReadByHost(s, i),
      PacketDeliveredToApplication(rec.packet.id, rec.packet.number, rec.packet.size, rec.node));
  }

  // ----- Link tasks -----

  lemma RequeuedTracked(c: Config, order: seq<NodeId>, s: State, s1: State)
    requires ValidConfig(c) && Tracked(c, order, s) && OnlyRequeued(s, s1)
    ensures Tracked(c, order, s1)
  {
    hide ValidConfig, Tracked, Agrees, Present, Replays;
    PresentAgrees(c, order, s);
    RequeueAgrees(c, s, Present(c, order, s), s1);
    SilentTracked(c, order, s, s1);
  }

  lemma TransmitTracked(c: Config, order: seq<NodeId>, s: State, l: LinkId, o: Offer)
    requires ValidConfig(c) && Tracked(c, order, s) && AtRest(s.log) && Sendable(c, s, l, o)
    ensures Tracked(c, order, Transmit(c, s, l, o)) && AtRest(Transmit(c, s, l, o).log)
  {
    hide ValidConfig, Tracked, Agrees, Present, StepAgrees, ReplayTrace, Pacing.TrackSend;
    PresentAgrees(c, order, s);
    PresentTime(c, order, s);
    TransmitAgrees(c, s, Present(c, order, s), l, o);
    EmittedTracked(c, order, s, Transmit(c, s, l, o),
      PacketInTransit(s.log[o.record].packet.id, s.log[o.record].node, l));
  }

  lemma StrandTracked(c: Config, order: seq<NodeId>, s: State, i: nat)
    requires ValidConfig(c) && Tracked(c, order, s) && i < |s.log| && s.log[i].fate.Buffered?
    ensures Tracked(c, order, SetFate(s, i, Stranded))
  {
    hide ValidConfig, Tracked, Agrees, Present, Replays;
    PresentAgrees(c, order, s);
    KeepAgrees(c, s, Present(c, order, s), i, Stranded);
    SilentTracked(c, order, s, SetFate(s, i, Stranded));
  }

  ghost predicate CanClaim(c: Config, s: State, l: LinkId, o: Offer) {
    && l in s.links && l in c.links && c.links[l].bandwidthBps > 0 && SaneOffer(c, s.log, l, o)
    && o.record < |s.log| && s.log[o.record].node in s.nodes
  }

  lemma ClaimTracked(c: Config, order: seq<NodeId>, s: State, l: LinkId, o: Offer)
    requires ValidConfig(c) && Tracked(c, order, s) && AtRest(s.log) && CanClaim(c, s, l, o)
    ensures Tracked(c, order, Claim(c, s, l, o)) && AtRest(Claim(c, s, l, o).log)
  {
    hide ValidConfig, Tracked, Transmit, SaneOffer;
    if Handled(s, o) {
      RequeuedTracked(c, order, s, SetTask(s, l, Idle));
    } else if ClearedFromBuffer(s, s.log[o.record]) {
      DropTracked(c, order, s, o.record, BufferCleared);
      RequeuedTracked(c, order, Drop(s, o.record, BufferCleared), Claim(c, s, l, o));
    } else if LinkUp(s, l) && Pacing.CanSend(s.links[l].sendDone, s.now) {
      TransmitTracked(c, order, s, l, o);
    } else {
      StrandTracked(c, order, s, o.record);
      RequeuedTracked(c, order, SetFate(s, o.record, Stranded), Claim(c, s, l, o));
    }
  }

  lemma PreferTracked(c: Config, order: seq<NodeId>, s: State, l: LinkId, o: Offer)
    requires ValidConfig(c) && Tracked(c, order, s) && AtRest(s.log) && CanClaim(c, s, l, o)
    ensures Tracked(c, order, Prefer(c, s, l, o)) && AtRest(Prefer(c, s, l, o).log)
  {
    hide ValidConfig, Tracked, Claim, SaneOffer;
    if o.preferred != [] && o.preferred[0] != l && !Handled(s, o) {
      RequeuedTracked(c, order, s, Prefer(c, s, l, o));
    } else {
      ClaimTracked(c, order, s, l, o);
    }
  }

  lemma AwaitTracked(c: Config, order: seq<NodeId>, s: State, l: LinkId, o: Offer)
    requires ValidConfig(c) && Tracked(c, order, s) && AtRest(s.log) && CanClaim(c, s, l, o)
    ensures Tracked(c, order, AwaitNode(c, s, l, o)) && AtRest(AwaitNode(c, s, l, o).log)
    ensures Tracked(c, order, AwaitLink(c, s, l, o)) && AtRest(AwaitLink(c, s, l, o).log)
  {
    hide ValidConfig, Tracked, Prefer, SaneOffer;
    PreferTracked(c, order, s, l, o);
    forall task
      ensures Tracked(c, order, SetTask(s, l, task))
    {
      RequeuedTracked(c, order, s, SetTask(s, l, task));
    }
  }

  lemma ResumeTracked(c: Config, order: seq<NodeId>, s: State, l: LinkId)
    requires ValidConfig(c) && Tracked(c, order, s) && AtRest(s.log)
    requires l in s.links && !s.links[l].task.Idle? && CanClaim(c, s, l, s.links[l].task.offer)
    ensures Tracked(c, order, Resume(c, s, l)) && AtRest(Resume(c, s, l).log)
  {
    hide ValidConfig, Tracked, Prefer, AwaitNode, AwaitLink, SaneOffer;
    PreferTracked(c, order, s, l, s.links[l].task.offer);
    AwaitTracked(c, order, s, l, s.links[l].task.offer);
  }

  lemma StartTracked(c: Config, order: seq<NodeId>, s: State, l: LinkId)
    requires ValidConfig(c) && Tracked(c, order, s) && AtRest(s.log)
    requires l in s.links && s.links[l].queue != [] && CanClaim(c, s, l, s.links[l].queue[0])
    ensures Tracked(c, order, TakeOffer(c, s, l)) && AtRest(TakeOffer(c, s, l).log)
  {
    hide ValidConfig, Tracked, Prefer, SaneOffer;
    var s1 := PopOffer(s, l);
    RequeuedTracked(c, order, s, s1);
    PreferTracked(c, order, s1, l, s.links[l].queue[0]);
    RequeuedTracked(c, order, s1, SetTask(s1, l,
      Sleeping(s.links[l].queue[0], s.now + Pacing.DurationUntilCanSend(s.links[l].sendDone, s.now))));
  }

  lemma {:induction false} OffersRequeue(c: Config, s: State, i: nat, all: seq<LinkId>, links: seq<LinkId>,
                                         slow: seq<bool>)
    requires |slow| == |links| && forall l :: l in links ==> l in s.links && l in c.links
    ensures OnlyRequeued(s, OfferAll(c, s, i, all, links, slow)) && OfferAll(c, s, i, all, links, slow).log == s.log
    decreases |links|
  {
    if links != [] {
      var o := Offer(i, all, if slow[0] then c.links[links[0]].extraDelay else 0);
      OffersRequeue(c, OfferTo(s, links[0], o), i, all, links[1..], slow[1..]);
    }
  }

  lemma OnlyRequeuedTransitive(s: State, s1: State, s2: State)
    requires OnlyRequeued(s, s1) && OnlyRequeued(s1, s2)
    ensures OnlyRequeued(s, s2)
  {
  }

  lemma OfferNextTracked(c: Config, order: seq<NodeId>, s: State, n: NodeId, slow: seq<bool>)
    requires ValidConfig(c) && Tracked(c, order, s) && AtRest(s.log)
    requires n in s.nodes && n in c.nodes && s.links.Keys == c.links.Keys
    requires s.nodes[n].outbound != [] && s.nodes[n].outbound[0] < |s.log|
    requires |slow| == |Candidates(c, n, s.log[s.nodes[n].outbound[0]].packet.destination.ip)|
    ensures Tracked(c, order, OfferNext(c, s, n, slow)) && AtRest(OfferNext(c, s, n, slow).log)
  {
    hide ValidConfig, Tracked, Candidates, OfferAll, OnlyRequeued, Addresses;
    var i := s.nodes[n].outbound[0];
    var links := Candidates(c, n, s.log[i].packet.destination.ip);
    CandidatesStartHere(c, n, s.log[i].packet.destination.ip);
    TakeOutboundRequeues(s, n);
    OffersRequeue(c, TakeOutbound(s, n), i, links, links, slow);
    OnlyRequeuedTransitive(s, TakeOutbound(s, n), OfferNext(c, s, n, slow));
    RequeuedTracked(c, order, s, OfferNext(c, s, n, slow));
  }

  lemma TakeOutboundRequeues(s: State, n: NodeId)
    requires n in s.nodes && s.nodes[n].outbound != []
    ensures OnlyRequeued(s, TakeOutbound(s, n)) && TakeOutbound(s, n).log == s.log
  {
  }

  // ----- Events -----

  lemma EventsTracked(c: Config, order: seq<NodeId>, s: State, a: Action)
    requires ValidConfig(c) && Tracked(c, order, s)
    requires (a.LinkChange? && a.linkEvent.link in s.links) || (a.NodeChange? && a.nodeEvent.node in s.nodes)
    ensures a.LinkChange? ==> Tracked(c, order, ProcessLinkEvent(s, a.linkEvent))
    ensures a.NodeChange? ==> Tracked(c, order, ProcessNodeEvent(s, a.nodeEvent))
  {
    hide ValidConfig, Tracked, Agrees, Present, StepAgrees, ReplayTrace, UpdateStatus, EdgeTime;
    PresentAgrees(c, order, s);
    PresentTime(c, order, s);
    if a.LinkChange? {
      LinkEventAgrees(c, s, Present(c, order, s), a.linkEvent);
      EmittedTracked(c, order, s, ProcessLinkEvent(s, a.linkEvent), NetworkEvent(Some(a.linkEvent), None));
    } else {
      NodeEventAgrees(c, s, Present(c, order, s), a.nodeEvent);
      EmittedTracked(c, order, s, ProcessNodeEvent(s, a.nodeEvent), NetworkEvent(None, Some(a.nodeEvent)));
    }
  }

  lemma UseMore(c: Config, order: seq<NodeId>, s: State, used: set<PacketId>, nextNumber: nat)
    requires ValidConfig(c) && Tracked(c, order, s) && s.used <= used
    ensures Tracked(c, order, s.(used := used, nextNumber := nextNumber))
    ensures forall id :: id !in s.used ==> FreshId(s.log, id)
  {
    hide ValidConfig, Present, Replays, WellFormed, Mirrored, StatusMirrored, LinksMirrored, FlightsKnown, Accounted,
      RecordsPlaced, ErrorsExcused, RoutersFit;
    SilentTracked(c, order, s, s.(used := used, nextNumber := nextNumber));
  }

  // ----- Every action, every run -----

  /** Everything that holds between the simulator and the verifier between two actions. */
  ghost predicate Good(c: Config, order: seq<NodeId>, s: State)
    requires ValidConfig(c)
  {
    Sane(c, s) && TasksWait(c, s) && Tracked(c, order, s) && AtRest(s.log)
  }

  lemma CreateGood(c: Config, order: seq<NodeId>, s: State, a: Action)
    requires ValidConfig(c) && Good(c, order, s) && Enabled(c, s, a) && a.Create?
    ensures Good(c, order, Perform(c, s, a))
  {
    hide ValidConfig, Sane, TasksWait, Tracked, AtRest, FreshId, Forward, OnlyPlaces;
    var p := Packet(a.id, s.nextNumber, a.size, a.destination);
    var s0 := s.(used := s.used + {a.id} + RollIds(a.roll), nextNumber := s.nextNumber + 1);
    NodesKnownToBoth(c, s);
    UseMore(c, order, s, s0.used, s0.nextNumber);
    UseMoreSane(c, s, s0);
    CreateTracked(c, order, s0, a.node, p, a.roll);
    ForwardSane(c, s0, a.node, p, a.roll, None);
    ForwardWaits(c, s0, Forward(c, s0, a.node, p, a.roll, None));
  }

  lemma NodesKnownToBoth(c: Config, s: State)
    requires Sane(c, s)
    ensures s.nodes.Keys == c.nodes.Keys && s.links.Keys == c.links.Keys
  {
  }

  lemma UseMoreSane(c: Config, s: State, s1: State)
    requires Sane(c, s) && TasksWait(c, s) && s1 == s.(used := s1.used, nextNumber := s1.nextNumber)
    ensures Sane(c, s1) && TasksWait(c, s1)
  {
    hide SaneOffer;
  }

  lemma ForwardWaits(c: Config, s: State, s1: State)
    requires Sane(c, s) && TasksWait(c, s) && Sane(c, s1) && OnlyPlaces(c, s, s1)
    ensures TasksWait(c, s1)
  {
    hide Sane, TasksWait;
    TasksStillWait(c, s, s1);
  }

  lemma TargetKnown(c: Config, s: State, l: LinkId)
    requires ValidConfig(c) && Sane(c, s) && l in s.links
    ensures l in c.links && TargetNode(c, l) in s.nodes && TargetNode(c, l) in c.nodes
  {
    hide Addresses, SaneOffer;
  }

  lemma DeliverGood(c: Config, order: seq<NodeId>, s: State, a: Action)
    requires ValidConfig(c) && Good(c, order, s) && Enabled(c, s, a) && a.RunForwarder?
    ensures Good(c, order, Perform(c, s, a))
  {
    hide ValidConfig, Sane, TasksWait, Tracked, AtRest, FreshId, Forward, OnlyPlaces;
    var l, i, roll := a.link, a.record, a.roll;
    var s0 := s.(used := s.used + RollIds(roll));
    TargetKnown(c, s, l);
    UseMore(c, order, s, s0.used, s0.nextNumber);
    UseMoreSane(c, s, s0);
    DeliverTracked(c, order, s0, l, i, roll);
    DeliverSane(c, s0, l, i, roll);
    ForwardWaits(c, s0, Deliver(c, s0, l, i, roll));
  }

  lemma DeliverSane(c: Config, s: State, l: LinkId, i: nat, roll: Roll)
    requires ValidConfig(c) && Sane(c, s) && l in c.links && l in s.links && TargetNode(c, l) in s.nodes
    requires TargetNode(c, l) in c.nodes && i < |s.log| && s.log[i].fate.InTransit?
    ensures Sane(c, Deliver(c, s, l, i, roll)) && OnlyPlaces(c, s, Deliver(c, s, l, i, roll))
  {
    hide ValidConfig, Sane, Forward;
    SaneNodes(c, s, Lost(s, l, i));
    ForwardSane(c, s, TargetNode(c, l), s.log[i].packet, roll, Some(i));
  }

  lemma ReadGood(c: Config, order: seq<NodeId>, s: State, a: Action)
    requires ValidConfig(c) && Good(c, order, s) && Enabled(c, s, a) && a.AppRead?
    ensures Good(c, order, Perform(c, s, a))
  {
    hide ValidConfig, Sane, TasksWait, Tracked, AtRest;
    ReadTracked(c, order, s, a.record);
    SaneNodes(c, s, ReadByHost(s, a.record));
    ForwardWaits(c, s, ReadByHost(s, a.record));
  }

  lemma OfferCanBeClaimed(c: Config, s: State, l: LinkId, o: Offer)
    requires ValidConfig(c) && Sane(c, s) && l in s.links && SaneOffer(c, s.log, l, o)
    ensures CanClaim(c, s, l, o)
  {
    hide Addresses;
  }

  lemma StartGood(c: Config, order: seq<NodeId>, s: State, a: Action)
    requires ValidConfig(c) && Good(c, order, s) && Enabled(c, s, a) && a.StartLinkTask?
    ensures Good(c, order, Perform(c, s, a))
  {
    hide ValidConfig, Sane, TasksWait, Tracked, AtRest, SaneOffer, CanClaim, TakeOffer;
    QueuedOfferIsSane(c, s, a.link);
    OfferCanBeClaimed(c, s, a.link, s.links[a.link].queue[0]);
    StartSane(c, s, a.link);
    StartTracked(c, order, s, a.link);
  }

  lemma ResumeGood(c: Config, order: seq<NodeId>, s: State, a: Action)
    requires ValidConfig(c) && Good(c, order, s) && Enabled(c, s, a) && a.ResumeLinkTask?
    ensures Good(c, order, Perform(c, s, a))
  {
    hide ValidConfig, Sane, TasksWait, Tracked, AtRest, SaneOffer, CanClaim, Resume, Ready;
    ResumeSane(c, s, a.link);
    TaskOfferIsSane(c, s, a.link);
    OfferCanBeClaimed(c, s, a.link, s.links[a.link].task.offer);
    ResumeTracked(c, order, s, a.link);
  }

  lemma NodeTaskGood(c: Config, order: seq<NodeId>, s: State, a: Action)
    requires ValidConfig(c) && Good(c, order, s) && Enabled(c, s, a) && a.RunNodeTask?
    ensures Good(c, order, Perform(c, s, a))
  {
    hide ValidConfig, TasksWait, Tracked, AtRest, SaneOffer, OfferAll, Candidates, Addresses;
    OutboundKnown(c, s, a.node);
    hide Sane;
    var i := s.nodes[a.node].outbound[0];
    var links := Candidates(c, a.node, s.log[i].packet.destination.ip);
    CandidatesStartHere(c, a.node, s.log[i].packet.destination.ip);
    OfferNextTracked(c, order, s, a.node, a.slow);
    var s1 := TakeOutbound(s, a.node);
    SaneNodes(c, s, s1);
    TasksStillWait(c, s, s1);
    OfferAllSane(c, s1, i, links, links, a.slow);
  }

  lemma OutboundKnown(c: Config, s: State, n: NodeId)
    requires Sane(c, s) && n in s.nodes && s.nodes[n].outbound != []
    ensures n in c.nodes && s.links.Keys == c.links.Keys
    ensures s.nodes[n].outbound[0] < |s.log| && s.log[s.nodes[n].outbound[0]].node == n
  {
    hide SaneOffer;
  }

  lemma EventGood(c: Config, order: seq<NodeId>, s: State, a: Action)
    requires ValidConfig(c) && Good(c, order, s) && Enabled(c, s, a) && (a.LinkChange? || a.NodeChange?)
    ensures Good(c, order, Perform(c, s, a))
  {
    hide ValidConfig, Sane, TasksWait, Tracked, AtRest, UpdateStatus, EdgeTime;
    EventsTracked(c, order, s, a);
    if a.LinkChange? {
      LinkEventSane(c, s, a.linkEvent);
    } else {
      NodeEventSane(c, s, a.nodeEvent);
    }
  }

  lemma TickGood(c: Config, order: seq<NodeId>, s: State, a: Action)
    requires ValidConfig(c) && Good(c, order, s) && Enabled(c, s, a) && a.Tick?
    ensures Good(c, order, Perform(c, s, a))
  {
    hide ValidConfig, Sane, TasksWait, Tracked, AtRest;
    TickTracked(c, order, s, a.time);
    SaneNodes(c, s, s.(now := a.time));
    TasksStillWait(c, s, s.(now := a.time));
  }

  lemma PerformGood(c: Config, order: seq<NodeId>, s: State, a: Action)
    requires ValidConfig(c) && Good(c, order, s) && Enabled(c, s, a)
    ensures Good(c, order, Perform(c, s, a))
  {
    hide ValidConfig, Good, Sane, Perform, Enabled;
    GoodIsSane(c, order, s);
    hide Tracked, TasksWait, AtRest;
    match a
    case Tick(_) => TickGood(c, order, s, a);
    case Create(_, _, _, _, _) => CreateGood(c, order, s, a);
    case RunNodeTask(_, _) => NodeTaskGood(c, order, s, a);
    case StartLinkTask(_) => StartGood(c, order, s, a);
    case ResumeLinkTask(_) => ResumeGood(c, order, s, a);
    case RunForwarder(_, _, _) => DeliverGood(c, order, s, a);
    case AppRead(_) => ReadGood(c, order, s, a);
    case LinkChange(_) => EventGood(c, order, s, a);
    case NodeChange(_) => EventGood(c, order, s, a);
  }

  lemma GoodIsSane(c: Config, order: seq<NodeId>, s: State)
    requires ValidConfig(c) && Good(c, order, s)
    ensures Sane(c, s) && TasksWait(c, s) && Tracked(c, order, s) && AtRest(s.log)
  {
  }
}
