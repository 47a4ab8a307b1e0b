/** Sends, status events and the passage of time keep the verifier in agreement. */
module AgreementMoves {
  import opened Types
  import opened Network
  import opened Status
  import opened Simulator
  import opened BandwidthWindow
  import opened NodeReplay
  import opened Replay
  import opened Ledger
  import opened Agreement
  import opened AgreementSteps
  import Pacing

  // ----- A packet goes onto a link -----

  /** What a link task knows at the moment its send passes both assertions. */
  ghost predicate Sendable(c: Config, s: State, l: LinkId, o: Offer) {
    && l in s.links && l in c.links && c.links[l].bandwidthBps > 0 && SaneOffer(c, s.log, l, o)
    && o.record < |s.log| && s.log[o.record].node in s.nodes && s.log[o.record].fate.Buffered?
    && !ClearedFromBuffer(s, s.log[o.record])
    && LinkUp(s, l) && Pacing.CanSend(s.links[l].sendDone, s.now)
  }

  lemma OfferFromSource(c: Config, log: seq<Record>, l: LinkId, o: Offer)
    requires ValidConfig(c) && SaneOffer(c, log, l, o)
    ensures log[o.record].node == SourceNode(c, l)
  {
    assert Owns(c, log[o.record].node, c.links[l].source);
    assert Owns(c, SourceNode(c, l), c.links[l].source);
  }

  function Parting(view: NodeView, id: PacketId): NodeView
    requires id in view.packets && Tallied(view)
  {
    RemovePacket(view, id).(sent := view.sent.TrackOne(view.packets[id].size))
  }

  function SentView(meta: Meta, r: ReplayState, l: LinkId, sizeBytes: nat): LinkView
    requires l in r.links && l in meta.links
  {
    PacketSent(r.links[l], r.lastStepTime, sizeBytes, meta.links[l].bandwidthBps)
  }

  function SendErrors(meta: Meta, r: ReplayState, n: NodeId, l: LinkId, id: PacketId,
                      sizeBytes: nat): seq<NonFatalError>
    requires n in r.nodes && l in r.links && l in meta.links
  {
    var used := UsedBps(SentView(meta, r, l, sizeBytes), meta.links[l].bandwidthBps);
    (if r.nodes[n].up then [] else [NodeDownPacketSend(n, id)])
    + (if meta.links[l].bandwidthBps < used
       then [LinkBandwidthExceeded(n, l, id, meta.links[l].bandwidthBps, used)] else [])
  }

  lemma PartingStep(meta: Meta, r: ReplayState, n: NodeId, id: PacketId)
    requires WellFormed(meta, r) && n in r.nodes && id in r.nodes[n].packets && Tallied(r.nodes[n])
    requires !Survived(r.nodes[n], r.nodes[n].packets[id])
    ensures var r1 := r.(nodes := r.nodes[n := Parting(r.nodes[n], id)],
                         errors := r.errors + if r.nodes[n].up then [] else [NodeDownPacketSend(n, id)]);
      WithNode(r, n, Sent(r.nodes[n], n, id)) == Running(r1) && WellFormed(meta, r1)
  {
    StepsKeepTally(r.nodes[n], n, id, 0, 0, false, Random, 0, 0);
    hide WellFormed, Tallied, SumSizes;
    WithNodePreserves(meta, r, n, Sent(r.nodes[n], n, id));
  }

  lemma OnLinkStep(meta: Meta, r: ReplayState, k: StepKind, p: HeldPacket)
    requires WellFormed(meta, r) && k.PacketInTransit? && k.link in meta.links
    requires k.node == meta.links[k.link].source && r.links[k.link].up && p.extraDelay == 0
    ensures var view := SentView(meta, r, k.link, p.size);
      var used := UsedBps(view, meta.links[k.link].bandwidthBps);
      SendOnLink(meta, r, r.lastStepTime, k, p)
      == r.(links := r.links[k.link := view],
            inFlight := r.inFlight[k.packet := InFlight(p.size, r.lastStepTime, 0, k.link)],
            errors := r.errors + if meta.links[k.link].bandwidthBps < used
              then [LinkBandwidthExceeded(k.node, k.link, k.packet, meta.links[k.link].bandwidthBps, used)] else [])
  {
    hide PacketSent, UsedBps, Tallied, SumBits;
  }

  /** The state while the packet has left its node, and is not on the link yet. */
  function BetweenNodes(r: ReplayState, n: NodeId, id: PacketId): ReplayState
    requires n in r.nodes && id in r.nodes[n].packets && Tallied(r.nodes[n])
  {
    r.(nodes := r.nodes[n := Parting(r.nodes[n], id)],
       errors := r.errors + if r.nodes[n].up then [] else [NodeDownPacketSend(n, id)])
  }

  lemma TransmitOutcome(meta: Meta, r: ReplayState, n: NodeId, l: LinkId, id: PacketId)
    requires WellFormed(meta, r) && n in r.nodes && l in meta.links && id in r.nodes[n].packets && Tallied(r.nodes[n])
    requires !Survived(r.nodes[n], r.nodes[n].packets[id])
    ensures var r1 := BetweenNodes(r, n, id);
      && WellFormed(meta, r1)
      && ApplyStep(meta, r, r.lastStepTime, PacketInTransit(id, n, l))
         == Running(SendOnLink(meta, r1, r.lastStepTime, PacketInTransit(id, n, l), r.nodes[n].packets[id]))
  {
    PartingStep(meta, r, n, id);
    hide WellFormed, Parting, Sent, SendOnLink, WithNode;
  }

  lemma TransmitStep(meta: Meta, r: ReplayState, n: NodeId, l: LinkId, id: PacketId)
    requires WellFormed(meta, r) && n in r.nodes && l in meta.links && id in r.nodes[n].packets
    requires n == meta.links[l].source && r.links[l].up && !Survived(r.nodes[n], r.nodes[n].packets[id])
    requires r.nodes[n].packets[id].extraDelay == 0
    ensures var size := r.nodes[n].packets[id].size;
      ApplyStep(meta, r, r.lastStepTime, PacketInTransit(id, n, l))
      == Running(r.(nodes := r.nodes[n := Parting(r.nodes[n], id)],
                    links := r.links[l := SentView(meta, r, l, size)],
                    inFlight := r.inFlight[id := InFlight(size, r.lastStepTime, 0, l)],
                    errors := r.errors + SendErrors(meta, r, n, l, id, size)))
  {
    TransmitOutcome(meta, r, n, l, id);
    hide WellFormed, Parting, SendOnLink, UsedBps, SentView, ApplyStep;
    var r1 := BetweenNodes(r, n, id);
    var size := r.nodes[n].packets[id].size;
    OnLinkStep(meta, r1, PacketInTransit(id, n, l), r.nodes[n].packets[id]);
    SameSentView(meta, r, r1, l, size);
    SendErrorsAre(meta, r, n, l, id, size);
    hide SendErrors;
  }

  lemma SendErrorsAre(meta: Meta, r: ReplayState, n: NodeId, l: LinkId, id: PacketId, sizeBytes: nat)
    requires n in r.nodes && l in r.links && l in meta.links
    ensures var bps := meta.links[l].bandwidthBps;
      var used := UsedBps(SentView(meta, r, l, sizeBytes), bps);
      r.errors + (if r.nodes[n].up then [] else [NodeDownPacketSend(n, id)])
        + (if bps < used then [LinkBandwidthExceeded(n, l, id, bps, used)] else [])
      == r.errors + SendErrors(meta, r, n, l, id, sizeBytes)
  {
    hide UsedBps, SentView;
  }

  lemma SameSentView(meta: Meta, r: ReplayState, r1: ReplayState, l: LinkId, sizeBytes: nat)
    requires l in r.links && l in meta.links && r1.links == r.links && r1.lastStepTime == r.lastStepTime
    ensures SentView(meta, r1, l, sizeBytes) == SentView(meta, r, l, sizeBytes)
  {
    hide PacketSent;
  }

  lemma SendBandwidth(c: Config, link: SimLink, view: LinkView, l: LinkId, now: Time, sizeBytes: nat)
    requires l in c.links && c.links[l].bandwidthBps > 0
    requires Pacing.Paced(view.window, c.links[l].bandwidthBps)
    requires Pacing.PacerCovers(view.window, link.sendDone, c.links[l].bandwidthBps)
    requires Pacing.CanSend(link.sendDone, now)
    ensures var bps := c.links[l].bandwidthBps;
      var view1 := PacketSent(view, now, sizeBytes, bps);
      && Pacing.Paced(view1.window, bps)
      && Pacing.PacerCovers(view1.window, Pacing.TrackSend(now, sizeBytes, bps), bps)
      && WithinOnePacket(UsedBps(view1, bps), bps, sizeBytes)
  {
    var bps := c.links[l].bandwidthBps;
    Pacing.SendStaysPaced(view.window, link.sendDone, now, sizeBytes, bps);
    Pacing.NewWindowSpan(view, now, sizeBytes, bps);
    Pacing.PacedWindowIsBounded(PacketSent(view, now, sizeBytes, bps).window, bps);
  }

  lemma TransmitLinks(c: Config, s: State, r: ReplayState, l: LinkId, o: Offer, step: Step)
    requires ValidConfig(c) && LinksMirrored(c, s.links, r.links, s.trace, s.now) && Sendable(c, s, l, o)
    requires l in r.links && l in MetaOf(c).links && r.lastStepTime == s.now && !IsLinkDown(step.kind)
    ensures LinksMirrored(c, Transmit(c, s, l, o).links,
      r.links[l := SentView(MetaOf(c), r, l, s.log[o.record].packet.size)], s.trace + [step], s.now)
  {
    hide ValidConfig, SaneOffer, SumBits, Expire, PacketSent, Pacing.TrackSend, Pacing.Paced, Pacing.PacerCovers,
      WithinOnePacket, DownAt;
    var s1 := Transmit(c, s, l, o);
    var size := s.log[o.record].packet.size;
    var links1 := r.links[l := SentView(MetaOf(c), r, l, size)];
    LinksStayMirrored(c, s.links, r.links, s.trace, step, s.now);
    assert LinkMirrored(c, l, s.links[l], r.links[l], s.trace + [step], s.now);
    SendBandwidth(c, s.links[l], r.links[l], l, s.now, size);
    SendKeepsStatus(r.links[l], s.now, size, c.links[l].bandwidthBps);
    forall m | m in s1.links
      ensures m in links1 && m in c.links && LinkMirrored(c, m, s1.links[m], links1[m], s.trace + [step], s.now)
    {
      assert LinkMirrored(c, m, s.links[m], r.links[m], s.trace + [step], s.now);
    }
  }

  /** A packet sent now is on a link that is up; a Down update the verifier dates no earlier came at this instant. */
  lemma NewFlightKnown(c: Config, s: State, r: ReplayState, l: LinkId, extraDelay: Time)
    requires LinksMirrored(c, s.links, r.links, s.trace, s.now) && l in s.links && LinkUp(s, l)
    ensures l in c.links
    ensures FlightKnown(c, InTransit(l, s.now, s.now + c.links[l].delay + extraDelay), s.links, r.links, s.trace, s.now)
  {
    hide DownAt;
    assert LinkMirrored(c, l, s.links[l], r.links[l], s.trace, s.now);
  }

  lemma TransmitFlights(c: Config, s: State, r: ReplayState, l: LinkId, o: Offer, step: Step)
    requires ValidConfig(c) && Sendable(c, s, l, o)
    requires LinksMirrored(c, s.links, r.links, s.trace, s.now)
    requires FlightsKnown(c, s.log, s.links, r.links, s.trace, s.now)
    requires l in r.links && l in MetaOf(c).links && r.lastStepTime == s.now && !IsLinkDown(step.kind)
    ensures FlightsKnown(c, Transmit(c, s, l, o).log, Transmit(c, s, l, o).links,
      r.links[l := SentView(MetaOf(c), r, l, s.log[o.record].packet.size)], s.trace + [step], s.now)
  {
    hide ValidConfig, LinksMirrored, SumBits, Expire, PacketSent, Pacing.TrackSend, DownAt;
    var s1 := Transmit(c, s, l, o);
    var size := s.log[o.record].packet.size;
    var links1 := r.links[l := SentView(MetaOf(c), r, l, size)];
    FlightsStayKnown(c, s.log, s.log, s.links, r.links, s.trace, step, s.now);
    LinksStayMirrored(c, s.links, r.links, s.trace, step, s.now);
    NewFlightKnown(c, s.(trace := s.trace + [step]), r, l, o.extraDelay);
    SendKeepsStatus(r.links[l], s.now, size, c.links[l].bandwidthBps);
    forall i | 0 <= i < |s1.log| && s1.log[i].fate.InTransit?
      ensures FlightKnown(c, s1.log[i].fate, s1.links, links1, s.trace + [step], s.now)
    {
      if i != o.record {
        assert FlightKnown(c, s.log[i].fate, s.links, r.links, s.trace + [step], s.now);
      }
    }
  }

  lemma SendKeepsStatus(view: LinkView, now: Time, sizeBytes: nat, bps: nat)
    ensures var view1 := PacketSent(view, now, sizeBytes, bps);
      view1.up == view.up && view1.lastDown == view.lastDown
  {
  }

  lemma TransmitCharges(c: Config, s: State, l: LinkId, o: Offer)
    requires Accounted(c, s.nodes, s.log) && Sendable(c, s, l, o)
    ensures Accounted(c, Transmit(c, s, l, o).nodes, Transmit(c, s, l, o).log)
  {
    hide Pacing.TrackSend, SaneOffer;
    var s1 := Transmit(c, s, l, o);
    forall n | n in s1.nodes
      ensures n in c.nodes && s1.nodes[n].available + Bytes(s1.log, n, Charged) == c.nodes[n].bufferSize
    {
      BytesUpdate(s.log, o.record, s1.log[o.record].fate, n, Charged);
    }
  }

  lemma TransmitStatus(c: Config, s: State, r: ReplayState, l: LinkId, o: Offer)
    requires StatusMirrored(s.nodes, r.nodes) && RoutersFit(c, r.nodes) && Sendable(c, s, l, o)
    requires s.log[o.record].node in r.nodes && Tallied(r.nodes[s.log[o.record].node])
    requires s.log[o.record].packet.id in r.nodes[s.log[o.record].node].packets
    ensures var n, id := s.log[o.record].node, s.log[o.record].packet.id;
      && StatusMirrored(Transmit(c, s, l, o).nodes, r.nodes[n := Parting(r.nodes[n], id)])
      && RoutersFit(c, r.nodes[n := Parting(r.nodes[n], id)])
  {
    hide Pacing.TrackSend, SaneOffer, SumSizes;
  }

  lemma OfferedPacket(c: Config, s: State, r: ReplayState, l: LinkId, o: Offer)
    requires ValidConfig(c) && Agrees(c, s, r) && Sendable(c, s, l, o)
    ensures var n, id := s.log[o.record].node, s.log[o.record].packet.id;
      && n in r.nodes && n in c.nodes && id in r.nodes[n].packets && Tallied(r.nodes[n])
      && r.nodes[n].packets[id] == HeldPacket(s.log[o.record].since, s.log[o.record].packet.size, 0)
      && !Survived(r.nodes[n], r.nodes[n].packets[id])
  {
    hide ValidConfig, Mirrored, StatusMirrored, LinksMirrored, FlightsKnown, IdsUsed, Accounted, RoutersFit,
      RecordsPlaced, ErrorsExcused, WellFormed;
    HeldInView(s, r, o.record);
    NodeKnown(c, s, r, s.log[o.record].node);
  }

  lemma SendErrorsExcused(c: Config, log: seq<Record>, trace: seq<Step>, r: ReplayState, l: LinkId, i: nat)
    requires ValidConfig(c) && i < |log| && log[i].node in r.nodes && l in r.links && l in MetaOf(c).links
    requires log[i].node == SourceNode(c, l)
    requires WithinOnePacket(UsedBps(SentView(MetaOf(c), r, l, log[i].packet.size), c.links[l].bandwidthBps),
                             c.links[l].bandwidthBps, log[i].packet.size)
    ensures ErrorsExcused(c, log, trace, SendErrors(MetaOf(c), r, log[i].node, l, log[i].packet.id, log[i].packet.size))
  {
    hide ValidConfig, SumBits, Expire, UsedBps, WithinOnePacket, SentView;
  }

  lemma TransmitExcused(c: Config, s: State, r: ReplayState, l: LinkId, o: Offer, step: Step)
    requires ValidConfig(c) && Sendable(c, s, l, o)
    requires LinksMirrored(c, s.links, r.links, s.trace, s.now) && ErrorsExcused(c, s.log, s.trace, r.errors)
    requires s.log[o.record].node in r.nodes && l in r.links && l in MetaOf(c).links && r.lastStepTime == s.now
    ensures var rec := s.log[o.record];
      ErrorsExcused(c, Transmit(c, s, l, o).log, s.trace + [step],
        r.errors + SendErrors(MetaOf(c), r, rec.node, l, rec.packet.id, rec.packet.size))
  {
    hide ValidConfig, SumBits, Expire, UsedBps, WithinOnePacket, SendErrors, PacketSent, Excused, DownAt;
    var rec := s.log[o.record];
    var s1 := Transmit(c, s, l, o);
    OfferFromSource(c, s.log, l, o);
    assert LinkMirrored(c, l, s.links[l], r.links[l], s.trace, s.now);
    SendBandwidth(c, s.links[l], r.links[l], l, s.now, rec.packet.size);
    ErrorsStayExcused(c, s.log, s1.log, s.trace, step, r.errors);
    SendErrorsExcused(c, s1.log, s.trace + [step], r, l, o.record);
  }

  lemma TransmitMirrored(c: Config, s: State, r: ReplayState, l: LinkId, o: Offer)
    requires ValidConfig(c) && Agrees(c, s, r) && Sendable(c, s, l, o)
    requires s.log[o.record].node in r.nodes && Tallied(r.nodes[s.log[o.record].node])
    requires s.log[o.record].packet.id in r.nodes[s.log[o.record].node].packets
    ensures var s1 := Transmit(c, s, l, o);
      var n, p := s.log[o.record].node, s.log[o.record].packet;
      && Mirrored(s1.log, r.nodes[n := Parting(r.nodes[n], p.id)], r.inFlight[p.id := InFlight(p.size, s.now, 0, l)])
      && IdsUsed(s1.log, s1.used) && RecordsPlaced(c, s1.log)
  {
    hide ValidConfig, StatusMirrored, LinksMirrored, FlightsKnown, Accounted, RoutersFit, IdsUsed, RecordsPlaced,
      ErrorsExcused, WellFormed, Mirrored;
    var n, p := s.log[o.record].node, s.log[o.record].packet;
    var f := InTransit(l, s.now, s.now + c.links[l].delay + o.extraDelay);
    MirrorSend(s.log, r.nodes, r.inFlight, o.record, f, Parting(r.nodes[n], p.id));
    FateChanged(c, s.log, s.used, o.record, f);
  }

  lemma TransmitAgrees(c: Config, s: State, r: ReplayState, l: LinkId, o: Offer)
    requires ValidConfig(c) && Agrees(c, s, r) && Sendable(c, s, l, o)
    ensures StepAgrees(c, r, PacketInTransit(s.log[o.record].packet.id, s.log[o.record].node, l), Transmit(c, s, l, o))
  {
    hide ValidConfig, WellFormed, Mirrored, StatusMirrored, LinksMirrored, FlightsKnown, Accounted, RoutersFit,
      IdsUsed, RecordsPlaced, ErrorsExcused, ApplyStep, SendErrors, SentView, Parting;
    var n, id := s.log[o.record].node, s.log[o.record].packet.id;
    var k := PacketInTransit(id, n, l);
    OfferFromSource(c, s.log, l, o);
    LinkKnown(c, s, r, l);
    OfferedPacket(c, s, r, l, o);
    TransmitStep(MetaOf(c), r, n, l, id);
    ApplyStepPreserves(MetaOf(c), r, s.now, k);
    TransmitMirrored(c, s, r, l, o);
    TransmitStatus(c, s, r, l, o);
    TransmitCharges(c, s, l, o);
    TransmitLinks(c, s, r, l, o, Step(s.now, k));
    TransmitFlights(c, s, r, l, o, Step(s.now, k));
    TransmitExcused(c, s, r, l, o, Step(s.now, k));
  }

  lemma LinkKnown(c: Config, s: State, r: ReplayState, l: LinkId)
    requires ValidConfig(c) && Agrees(c, s, r) && l in s.links
    ensures l in c.links && l in r.links && l in MetaOf(c).links
    ensures r.links[l].up <==> LinkUp(s, l)
  {
    hide ValidConfig, Mirrored, StatusMirrored, FlightsKnown, Accounted, RoutersFit, IdsUsed, RecordsPlaced,
      ErrorsExcused;
    assert LinkMirrored(c, l, s.links[l], r.links[l], s.trace, s.now);
  }

  // ----- Status events -----

  lemma DownAtGrows(trace: seq<Step>, step: Step)
    ensures forall l, t :: DownAt(trace + [step], l, t) <==> DownAt(trace, l, t) || step == DownStep(l, t)
  {
    forall l, t
      ensures DownAt(trace + [step], l, t) <==> DownAt(trace, l, t) || step == DownStep(l, t)
    {
      assert (trace + [step])[|trace|] == step;
    }
  }

  lemma LinkDownMirrored(c: Config, s: State, r: ReplayState, l: LinkId)
    requires LinksMirrored(c, s.links, r.links, s.trace, s.now) && l in s.links
    requires FlightsKnown(c, s.log, s.links, r.links, s.trace, s.now)
    ensures var e := LinkEvent(l, Some(GoDown));
      var s1 := ProcessLinkEvent(s, e);
      var links1 := r.links[l := SetStatus(r.links[l], GoDown, s.now)];
      LinksMirrored(c, s1.links, links1, s1.trace, s.now) && FlightsKnown(c, s1.log, s1.links, links1, s1.trace, s.now)
  {
    hide Pacing.Paced, Pacing.PacerCovers, DownAt;
    var s1 := ProcessLinkEvent(s, LinkEvent(l, Some(GoDown)));
    var links1 := r.links[l := SetStatus(r.links[l], GoDown, s.now)];
    var step := DownStep(l, s.now);
    DownAtGrows(s.trace, step);
    assert s1.trace == s.trace + [step];
    forall m | m in s1.links
      ensures m in links1 && m in c.links && LinkMirrored(c, m, s1.links[m], links1[m], s1.trace, s.now)
    {
      assert LinkMirrored(c, m, s.links[m], r.links[m], s.trace, s.now);
    }
    forall i | 0 <= i < |s.log| && s.log[i].fate.InTransit?
      ensures FlightKnown(c, s.log[i].fate, s1.links, links1, s1.trace, s.now)
    {
      assert FlightKnown(c, s.log[i].fate, s.links, r.links, s.trace, s.now);
    }
  }

  lemma LinkUpMirrored(c: Config, s: State, r: ReplayState, l: LinkId)
    requires LinksMirrored(c, s.links, r.links, s.trace, s.now) && l in s.links
    requires FlightsKnown(c, s.log, s.links, r.links, s.trace, s.now)
    ensures var e := LinkEvent(l, Some(GoUp));
      var s1 := ProcessLinkEvent(s, e);
      var links1 := r.links[l := SetStatus(r.links[l], GoUp, s.now)];
      LinksMirrored(c, s1.links, links1, s1.trace, s.now) && FlightsKnown(c, s1.log, s1.links, links1, s1.trace, s.now)
  {
    hide Pacing.Paced, Pacing.PacerCovers, DownAt;
    var e := LinkEvent(l, Some(GoUp));
    var s1 := ProcessLinkEvent(s, e);
    var links1 := r.links[l := SetStatus(r.links[l], GoUp, s.now)];
    var step := Step(s.now, NetworkEvent(Some(e), None));
    LinksStayMirrored(c, s.links, r.links, s.trace, step, s.now);
    FlightsStayKnown(c, s.log, s.log, s.links, r.links, s.trace, step, s.now);
    forall m | m in s1.links
      ensures m in links1 && m in c.links && LinkMirrored(c, m, s1.links[m], links1[m], s1.trace, s.now)
    {
      assert LinkMirrored(c, m, s.links[m], r.links[m], s1.trace, s.now);
    }
    forall i | 0 <= i < |s.log| && s.log[i].fate.InTransit?
      ensures FlightKnown(c, s.log[i].fate, s1.links, links1, s1.trace, s.now)
    {
      assert FlightKnown(c, s.log[i].fate, s.links, r.links, s1.trace, s.now);
    }
  }

  lemma LinkEventAgrees(c: Config, s: State, r: ReplayState, e: LinkEvent)
    requires ValidConfig(c) && Agrees(c, s, r) && e.link in s.links
    ensures StepAgrees(c, r, NetworkEvent(Some(e), None), ProcessLinkEvent(s, e))
  {
    hide ValidConfig, WellFormed, Mirrored, StatusMirrored, LinksMirrored, FlightsKnown, Accounted, RoutersFit,
      IdsUsed, RecordsPlaced, ErrorsExcused, SetStatus, UpdateStatus, EdgeTime;
    var k := NetworkEvent(Some(e), None);
    var step := Step(s.now, k);
    LinkKnown(c, s, r, e.link);
    ApplyStepPreserves(MetaOf(c), r, s.now, k);
    ErrorsStayExcused(c, s.log, s.log, s.trace, step, r.errors);
    match e.status
    case None =>
      LinksStayMirrored(c, s.links, r.links, s.trace, step, s.now);
      FlightsStayKnown(c, s.log, s.log, s.links, r.links, s.trace, step, s.now);
      assert s.links[e.link := s.links[e.link]] == s.links;
    case Some(GoUp) => LinkUpMirrored(c, s, r, e.link);
    case Some(GoDown) => LinkDownMirrored(c, s, r, e.link);
  }

  lemma NodeEventNodes(c: Config, s: State, r: ReplayState, e: NodeEvent)
    requires StatusMirrored(s.nodes, r.nodes) && Accounted(c, s.nodes, s.log) && RoutersFit(c, r.nodes)
    requires e.node in s.nodes && e.node in r.nodes
    ensures var s1 := ProcessNodeEvent(s, e);
      var nodes1 := r.nodes[e.node := HandleEvent(r.nodes[e.node], e, s.now)];
      StatusMirrored(s1.nodes, nodes1) && Accounted(c, s1.nodes, s1.log) && RoutersFit(c, nodes1)
  {
  }

  lemma NodeEventAgrees(c: Config, s: State, r: ReplayState, e: NodeEvent)
    requires ValidConfig(c) && Agrees(c, s, r) && e.node in s.nodes
    ensures StepAgrees(c, r, NetworkEvent(None, Some(e)), ProcessNodeEvent(s, e))
  {
    hide ValidConfig, WellFormed, Mirrored, StatusMirrored, LinksMirrored, FlightsKnown, Accounted, RoutersFit,
      IdsUsed, RecordsPlaced, ErrorsExcused, UpdateStatus;
    var k := NetworkEvent(None, Some(e));
    var step := Step(s.now, k);
    NodeKnown(c, s, r, e.node);
    ApplyStepPreserves(MetaOf(c), r, s.now, k);
    ErrorsStayExcused(c, s.log, s.log, s.trace, step, r.errors);
    LinksStayMirrored(c, s.links, r.links, s.trace, step, s.now);
    FlightsStayKnown(c, s.log, s.log, s.links, r.links, s.trace, step, s.now);
    MirrorSameHoldings(s.log, r.nodes, r.inFlight, e.node, HandleEvent(r.nodes[e.node], e, s.now));
    NodeEventNodes(c, s, r, e);
  }
}
