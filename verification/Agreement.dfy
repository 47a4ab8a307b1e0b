/** The relation between a simulator state and the verifier's state after replaying its trace. */
module Agreement {
  import opened Types
  import opened Network
  import opened Status
  import opened Simulator
  import opened BandwidthWindow
  import opened NodeReplay
  import opened Replay
  import opened Ledger
  import Pacing

  ghost function MetaOf(c: Config): Meta
    requires ValidConfig(c)
  {
    Meta(set n | n in c.nodes && c.nodes[n].kind.Host?,
         map n | n in c.nodes :: c.nodes[n].bufferSize,
         map l | l in c.links ::
           LinkMeta(SourceNode(c, l), TargetNode(c, l), c.links[l].delay, c.links[l].bandwidthBps))
  }

  // ----- The parts of the relation -----

  function DownStep(l: LinkId, t: Time): Step {
    Step(t, NetworkEvent(Some(LinkEvent(l, Some(GoDown))), None))
  }

  /** A Down update for the link was recorded at that instant. */
  predicate DownAt(trace: seq<Step>, l: LinkId, t: Time) {
    DownStep(l, t) in trace
  }

  ghost predicate StatusMirrored(nodes: map<NodeId, SimNode>, views: map<NodeId, NodeView>) {
    forall n :: n in nodes ==>
      && n in views
      && (views[n].up <==> nodes[n].status.status.Up?)
      && views[n].lastBufferClear == nodes[n].lastBufferClear
  }

  ghost predicate LinkMirrored(c: Config, l: LinkId, link: SimLink, view: LinkView, trace: seq<Step>, now: Time)
    requires l in c.links
  {
    && (view.up <==> link.status.status.Up?)
    && (link.lastDown.Some? ==> DownAt(trace, l, link.lastDown.value))
    && (view.lastDown.Some? ==> DownAt(trace, l, view.lastDown.value) && view.lastDown.value <= now)
    && (forall t :: DownAt(trace, l, t) ==> Since(view.lastDown, t))
    && Pacing.Paced(view.window, c.links[l].bandwidthBps)
    && Pacing.PacerCovers(view.window, link.sendDone, c.links[l].bandwidthBps)
  }

  ghost predicate LinksMirrored(c: Config, links: map<LinkId, SimLink>, views: map<LinkId, LinkView>,
                                trace: seq<Step>, now: Time)
  {
    forall l :: l in links ==>
      l in views && l in c.links && LinkMirrored(c, l, links[l], views[l], trace, now)
  }

  /** What is known of a packet on a link: when it may arrive, and what later Down updates mean for it. */
  ghost predicate FlightKnown(c: Config, f: Fate, links: map<LinkId, SimLink>, views: map<LinkId, LinkView>,
                              trace: seq<Step>, now: Time)
    requires f.InTransit?
  {
    && f.link in c.links && f.link in links && f.link in views
    && f.sent <= now && f.sent + c.links[f.link].delay <= f.arrival
    && (Since(views[f.link].lastDown, f.sent) ==>
          Since(links[f.link].lastDown, f.sent) || DownAt(trace, f.link, f.sent))
    && (links[f.link].status.status.Down? ==> Since(links[f.link].lastDown, f.sent))
  }

  ghost predicate FlightsKnown(c: Config, log: seq<Record>, links: map<LinkId, SimLink>,
                               views: map<LinkId, LinkView>, trace: seq<Step>, now: Time)
  {
    forall i :: 0 <= i < |log| && log[i].fate.InTransit? ==> FlightKnown(c, log[i].fate, links, views, trace, now)
  }

  /** Free space and the space taken by buffered, and by wiped but never released, packets make up the buffer. */
  ghost predicate Accounted(c: Config, nodes: map<NodeId, SimNode>, log: seq<Record>) {
    forall n :: n in nodes ==> n in c.nodes && nodes[n].available + Bytes(log, n, Charged) == c.nodes[n].bufferSize
  }

  predicate IdsUsed(log: seq<Record>, used: set<PacketId>) {
    forall i :: 0 <= i < |log| ==> log[i].packet.id in used
  }

  predicate RecordsPlaced(c: Config, log: seq<Record>) {
    forall i :: 0 <= i < |log| ==>
      && log[i].node in c.nodes
      && (log[i].fate.Phantom? || log[i].fate.AtApp? ==> c.nodes[log[i].node].kind.Host?)
  }

  /** The bandwidth bound that pacing guarantees for one packet. */
  predicate WithinOnePacket(observed: nat, bandwidthBps: nat, sizeBytes: nat) {
    observed <= bandwidthBps + sizeBytes * 8 / if bandwidthBps < 9984 then 10 else 1
  }

  /** The only non-fatal errors a simulated trace can draw, each with what must have happened. */
  ghost predicate Excused(c: Config, log: seq<Record>, trace: seq<Step>, e: NonFatalError)
    requires ValidConfig(c)
  {
    match e
    case NodeExceedsBufferSize(n, _, _) => n in c.nodes && c.nodes[n].kind.Host?
    case NodeDownPacketSend(n, id) => exists i :: 0 <= i < |log| && log[i].node == n && log[i].packet.id == id
    case NodeDownPacketReceive(n, id) =>
      exists i :: 0 <= i < |log| && log[i].node == n && log[i].packet.id == id && log[i].fate.Phantom?
    case OfflinePacketReceive(n, l, sent, _) => l in c.links && n == TargetNode(c, l) && DownAt(trace, l, sent)
    case LinkBandwidthExceeded(n, l, id, most, observed) =>
      && l in c.links && n == SourceNode(c, l) && most == c.links[l].bandwidthBps
      && exists i :: (0 <= i < |log| && log[i].packet.id == id && WithinOnePacket(observed, most, log[i].packet.size))
    case _ => false
  }

  ghost predicate ErrorsExcused(c: Config, log: seq<Record>, trace: seq<Step>, errors: seq<NonFatalError>)
    requires ValidConfig(c)
  {
    forall e :: e in errors ==> Excused(c, log, trace, e)
  }

  predicate RoutersFit(c: Config, views: map<NodeId, NodeView>) {
    forall n :: n in views && n in c.nodes && c.nodes[n].kind.Router? ==>
      views[n].maxBufferUsage <= c.nodes[n].bufferSize
  }

  /** The verifier state `r` is what the simulator state `s` calls for. */
  ghost predicate Agrees(c: Config, s: State, r: ReplayState)
    requires ValidConfig(c)
  {
    && s.nodes.Keys == c.nodes.Keys && s.links.Keys == c.links.Keys
    && WellFormed(MetaOf(c), r) && r.lastStepTime == s.now
    && Mirrored(s.log, r.nodes, r.inFlight)
    && StatusMirrored(s.nodes, r.nodes)
    && LinksMirrored(c, s.links, r.links, s.trace, s.now)
    && FlightsKnown(c, s.log, s.links, r.links, s.trace, s.now)
    && Accounted(c, s.nodes, s.log)
    && IdsUsed(s.log, s.used)
    && RecordsPlaced(c, s.log)
    && ErrorsExcused(c, s.log, s.trace, r.errors)
    && RoutersFit(c, r.nodes)
  }

  /** The step `k`, emitted on the way from a state that agrees with `r`, leads to one that agrees again. */
  ghost predicate StepAgrees(c: Config, r: ReplayState, k: StepKind, s': State)
    requires ValidConfig(c) && WellFormed(MetaOf(c), r) && r.lastStepTime == s'.now
  {
    var o := ApplyStep(MetaOf(c), r, s'.now, k);
    o.Running? && Agrees(c, s', o.st)
  }

  // ----- Growth of log and trace -----

  /** Records are never removed, and only their fate changes; a phantom stays one. */
  ghost predicate LogGrows(log: seq<Record>, log1: seq<Record>) {
    && |log| <= |log1|
    && forall i :: 0 <= i < |log| ==>
         && log1[i].node == log[i].node && log1[i].packet == log[i].packet
         && (log[i].fate.Phantom? ==> log1[i].fate.Phantom?)
  }

  lemma ErrorsStayExcused(c: Config, log: seq<Record>, log1: seq<Record>, trace: seq<Step>, step: Step,
                          errors: seq<NonFatalError>)
    requires ValidConfig(c) && LogGrows(log, log1) && ErrorsExcused(c, log, trace, errors)
    ensures ErrorsExcused(c, log1, trace, errors) && ErrorsExcused(c, log1, trace + [step], errors)
  {
    forall e | e in errors
      ensures Excused(c, log1, trace, e) && Excused(c, log1, trace + [step], e)
    {
      assert Excused(c, log, trace, e);
      match e
      case NodeDownPacketSend(n, id) =>
        var i :| 0 <= i < |log| && log[i].node == n && log[i].packet.id == id;
        assert log1[i].node == n && log1[i].packet.id == id;
      case NodeDownPacketReceive(n, id) =>
        var i :| 0 <= i < |log| && log[i].node == n && log[i].packet.id == id && log[i].fate.Phantom?;
        assert log1[i].node == n && log1[i].packet.id == id && log1[i].fate.Phantom?;
      case LinkBandwidthExceeded(n, l, id, most, observed) =>
        var i :| 0 <= i < |log| && log[i].packet.id == id && WithinOnePacket(observed, most, log[i].packet.size);
        assert log1[i].packet.id == id && WithinOnePacket(observed, most, log1[i].packet.size);
      case _ =>
    }
  }

  predicate IsLinkDown(k: StepKind) {
    k.NetworkEvent? && k.linkEvent.Some? && k.linkEvent.value.status == Some(GoDown)
  }

  lemma LinksStayMirrored(c: Config, links: map<LinkId, SimLink>, views: map<LinkId, LinkView>,
                          trace: seq<Step>, step: Step, now: Time)
    requires LinksMirrored(c, links, views, trace, now) && !IsLinkDown(step.kind)
    ensures LinksMirrored(c, links, views, trace + [step], now)
  {
    forall l, t
      ensures DownAt(trace + [step], l, t) <==> DownAt(trace, l, t)
    {
      assert DownStep(l, t) != step;
    }
    forall l | l in links
      ensures l in views && l in c.links && LinkMirrored(c, l, links[l], views[l], trace + [step], now)
    {
      assert LinkMirrored(c, l, links[l], views[l], trace, now);
    }
  }

  lemma FlightsStayKnown(c: Config, log: seq<Record>, log1: seq<Record>, links: map<LinkId, SimLink>,
                         views: map<LinkId, LinkView>, trace: seq<Step>, step: Step, now: Time)
    requires FlightsKnown(c, log, links, views, trace, now)
    requires forall i :: 0 <= i < |log1| && log1[i].fate.InTransit? ==> i < |log| && log1[i] == log[i]
    ensures FlightsKnown(c, log1, links, views, trace, now)
    ensures FlightsKnown(c, log1, links, views, trace + [step], now)
  {
    forall i | 0 <= i < |log1| && log1[i].fate.InTransit?
      ensures FlightKnown(c, log1[i].fate, links, views, trace + [step], now)
    {
      assert FlightKnown(c, log[i].fate, links, views, trace, now);
    }
  }
}
