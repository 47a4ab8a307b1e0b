/** Each trace step the simulator emits, and each silent move, keeps the verifier in agreement. */
module AgreementSteps {
  import opened Types
  import opened Network
  import opened Status
  import opened Simulator
  import opened BandwidthWindow
  import opened NodeReplay
  import opened Replay
  import opened Ledger
  import opened Agreement
  import Pacing

  /** What carries over when only the log, and one node's view, change. */
  lemma CarryOver(c: Config, s: State, r: ReplayState, log1: seq<Record>, n: NodeId, view: NodeView, step: Step)
    requires ValidConfig(c) && Agrees(c, s, r) && n in r.nodes
    requires LogGrows(s.log, log1) && !IsLinkDown(step.kind)
    requires forall i :: 0 <= i < |log1| && log1[i].fate.InTransit? ==> i < |s.log| && log1[i] == s.log[i]
    requires view.up == r.nodes[n].up && view.lastBufferClear == r.nodes[n].lastBufferClear
    requires view.maxBufferUsage == r.nodes[n].maxBufferUsage
    ensures ErrorsExcused(c, log1, s.trace + [step], r.errors)
    ensures LinksMirrored(c, s.links, r.links, s.trace + [step], s.now)
    ensures FlightsKnown(c, log1, s.links, r.links, s.trace + [step], s.now)
    ensures StatusMirrored(s.nodes, r.nodes[n := view])
    ensures RoutersFit(c, r.nodes[n := view])
  {
    hide ValidConfig, WellFormed, Mirrored, LinksMirrored, FlightsKnown, Accounted, ErrorsExcused;
    ErrorsStayExcused(c, s.log, log1, s.trace, step, r.errors);
    LinksStayMirrored(c, s.links, r.links, s.trace, step, s.now);
    FlightsStayKnown(c, s.log, log1, s.links, r.links, s.trace, step, s.now);
  }

  lemma ChargeUnchanged(c: Config, nodes: map<NodeId, SimNode>, log: seq<Record>, r: Record)
    requires Accounted(c, nodes, log) && !Counts(Charged, r.fate)
    ensures Accounted(c, nodes, log + [r])
  {
    forall n | n in nodes
      ensures Bytes(log + [r], n, Charged) == Bytes(log, n, Charged)
    {
      BytesAppend(log, r, n, Charged);
    }
  }

  lemma ChargeKept(c: Config, nodes: map<NodeId, SimNode>, log: seq<Record>, i: nat, f: Fate)
    requires Accounted(c, nodes, log) && i < |log| && (Counts(Charged, log[i].fate) <==> Counts(Charged, f))
    ensures Accounted(c, nodes, log[i := log[i].(fate := f)])
  {
    forall n | n in nodes
      ensures Bytes(log[i := log[i].(fate := f)], n, Charged) == Bytes(log, n, Charged)
    {
      BytesUpdate(log, i, f, n, Charged);
    }
  }

  lemma RecordAppended(c: Config, log: seq<Record>, used: set<PacketId>, r: Record)
    requires IdsUsed(log, used) && RecordsPlaced(c, log)
    requires r.packet.id in used && r.node in c.nodes
    requires r.fate.Phantom? || r.fate.AtApp? ==> c.nodes[r.node].kind.Host?
    ensures IdsUsed(log + [r], used) && RecordsPlaced(c, log + [r]) && LogGrows(log, log + [r])
  {
  }

  lemma FateChanged(c: Config, log: seq<Record>, used: set<PacketId>, i: nat, f: Fate)
    requires IdsUsed(log, used) && RecordsPlaced(c, log) && i < |log| && !log[i].fate.Phantom? && !f.Phantom?
    requires f.AtApp? ==> c.nodes[log[i].node].kind.Host?
    ensures var log1 := log[i := log[i].(fate := f)];
      IdsUsed(log1, used) && RecordsPlaced(c, log1) && LogGrows(log, log1)
  {
  }

  lemma NodeKnown(c: Config, s: State, r: ReplayState, n: NodeId)
    requires ValidConfig(c) && Agrees(c, s, r) && n in c.nodes
    ensures n in s.nodes && n in r.nodes && Tallied(r.nodes[n])
    ensures r.nodes[n].up <==> NodeUp(s, n)
    ensures r.nodes[n].lastBufferClear == s.nodes[n].lastBufferClear
    ensures c.nodes[n].kind.Host? <==> n in MetaOf(c).hosts
  {
    hide ValidConfig, Mirrored, LinksMirrored, FlightsKnown, Accounted, IdsUsed, RecordsPlaced, ErrorsExcused,
      RoutersFit;
  }

  // ----- What single steps do to the verifier's state -----

  function Adding(view: NodeView, p: Packet, now: Time): NodeView {
    view.(packets := view.packets[p.id := HeldPacket(now, p.size, 0)], bufferUsage := view.bufferUsage + p.size)
  }

  lemma CreationStep(meta: Meta, r: ReplayState, n: NodeId, p: Packet, dropped: bool)
    requires WellFormed(meta, r) && n in r.nodes && n in meta.hosts
    requires p.id !in r.inFlight && p.id !in r.nodes[n].packets
    ensures ApplyStep(meta, r, r.lastStepTime, PacketInNode(p.id, p.number, p.size, n, dropped))
         == Running(r.(nodes := r.nodes[n := Adding(r.nodes[n], p, r.lastStepTime)],
                       errors := r.errors + if r.nodes[n].up then [] else [NodeDownPacketReceive(n, p.id)]))
  {
    hide WellFormed;
    assert r.errors + [] == r.errors;
  }

  lemma DuplicationStep(meta: Meta, r: ReplayState, n: NodeId, p: Packet)
    requires WellFormed(meta, r) && n in r.nodes && r.nodes[n].up && p.id !in r.nodes[n].packets
    ensures ApplyStep(meta, r, r.lastStepTime, PacketDuplicated(p.id, p.number, p.size, n))
         == Running(r.(nodes := r.nodes[n :=
              Adding(r.nodes[n].(duplicated := r.nodes[n].duplicated.TrackOne(p.size)), p, r.lastStepTime)]))
  {
    assert r.errors + [] == r.errors;
  }

  // ----- A packet appears -----

  /** The effect on both sides of one more held packet, whatever counters and errors go with it. */
  lemma AddAgrees(c: Config, s: State, r: ReplayState, rec: Record, view: NodeView, step: Step,
                  errors: seq<NonFatalError>)
    requires ValidConfig(c) && Agrees(c, s, r)
    requires rec.node in r.nodes && rec.node in c.nodes && NotLive(s.log, rec.packet.id) && rec.packet.id in s.used
    requires rec.fate.Arriving? || (rec.fate.Phantom? && c.nodes[rec.node].kind.Host?)
    requires view.packets == r.nodes[rec.node].packets[rec.packet.id := HeldPacket(rec.since, rec.packet.size, 0)]
    requires view.bufferUsage == r.nodes[rec.node].bufferUsage + rec.packet.size
    requires view.up == r.nodes[rec.node].up && view.lastBufferClear == r.nodes[rec.node].lastBufferClear
    requires view.maxBufferUsage == r.nodes[rec.node].maxBufferUsage
    requires !IsLinkDown(step.kind) && ErrorsExcused(c, s.log + [rec], s.trace + [step], errors)
    requires WellFormed(MetaOf(c), r.(nodes := r.nodes[rec.node := view], errors := r.errors + errors))
    ensures Agrees(c, s.(log := s.log + [rec], trace := s.trace + [step]),
                   r.(nodes := r.nodes[rec.node := view], errors := r.errors + errors))
  {
    hide ValidConfig, WellFormed, StatusMirrored, LinksMirrored, FlightsKnown, Accounted, RoutersFit,
      ApplyStep, IdsUsed, RecordsPlaced, NotLive, Mirrored, MetaOf;
    RecordAppended(c, s.log, s.used, rec);
    MirrorAdd(s.log, r.nodes, r.inFlight, rec, view);
    CarryOver(c, s, r, s.log + [rec], rec.node, view, step);
    ChargeUnchanged(c, s.nodes, s.log, rec);
  }

  lemma ArriveNewAgrees(c: Config, s: State, r: ReplayState, n: NodeId, p: Packet)
    requires ValidConfig(c) && Agrees(c, s, r)
    requires n in c.nodes && n in s.nodes && c.nodes[n].kind.Host? && NodeUp(s, n)
    requires NotLive(s.log, p.id) && p.id in s.used
    ensures StepAgrees(c, r, PacketInNode(p.id, p.number, p.size, n, false), Arrive(s, n, p, None))
  {
    hide ValidConfig, WellFormed, StatusMirrored, LinksMirrored, FlightsKnown, Accounted, RoutersFit,
      ApplyStep, IdsUsed, RecordsPlaced, NotLive, MetaOf,
      HoldingsMirrored, FlightsMirrored, UsageMirrored;
    var k := PacketInNode(p.id, p.number, p.size, n, false);
    NodeKnown(c, s, r, n);
    AbsentIfNotLive(s.log, r.nodes, r.inFlight, p.id);
    CreationStep(MetaOf(c), r, n, p, false);
    ApplyStepPreserves(MetaOf(c), r, s.now, k);
    AddAgrees(c, s, r, Record(n, p, s.now, Arriving), Adding(r.nodes[n], p, s.now), Step(s.now, k), []);
  }

  lemma CreateWhileDownAgrees(c: Config, s: State, r: ReplayState, n: NodeId, p: Packet)
    requires ValidConfig(c) && Agrees(c, s, r)
    requires n in c.nodes && n in s.nodes && c.nodes[n].kind.Host? && !NodeUp(s, n)
    requires NotLive(s.log, p.id) && p.id in s.used
    ensures StepAgrees(c, r, PacketInNode(p.id, p.number, p.size, n, true), ArriveWhileDown(s, n, p, None))
  {
    hide ValidConfig, WellFormed, StatusMirrored, LinksMirrored, FlightsKnown, Accounted, RoutersFit,
      ApplyStep, IdsUsed, RecordsPlaced, NotLive, MetaOf,
      HoldingsMirrored, FlightsMirrored, UsageMirrored;
    var k := PacketInNode(p.id, p.number, p.size, n, true);
    var rec := Record(n, p, s.now, Phantom);
    NodeKnown(c, s, r, n);
    AbsentIfNotLive(s.log, r.nodes, r.inFlight, p.id);
    CreationStep(MetaOf(c), r, n, p, true);
    ApplyStepPreserves(MetaOf(c), r, s.now, k);
    assert (s.log + [rec])[|s.log|] == rec;
    AddAgrees(c, s, r, rec, Adding(r.nodes[n], p, s.now), Step(s.now, k), [NodeDownPacketReceive(n, p.id)]);
  }

  lemma ArriveDuplicateAgrees(c: Config, s: State, r: ReplayState, n: NodeId, p: Packet)
    requires ValidConfig(c) && Agrees(c, s, r)
    requires n in c.nodes && n in s.nodes && NodeUp(s, n) && NotLive(s.log, p.id) && p.id in s.used
    ensures StepAgrees(c, r, PacketDuplicated(p.id, p.number, p.size, n), ArriveDuplicate(s, n, p))
  {
    hide ValidConfig, WellFormed, StatusMirrored, LinksMirrored, FlightsKnown, Accounted, RoutersFit,
      ApplyStep, IdsUsed, RecordsPlaced, NotLive, MetaOf,
      HoldingsMirrored, FlightsMirrored, UsageMirrored;
    var k := PacketDuplicated(p.id, p.number, p.size, n);
    NodeKnown(c, s, r, n);
    var view := r.nodes[n].(duplicated := r.nodes[n].duplicated.TrackOne(p.size));
    AbsentIfNotLive(s.log, r.nodes, r.inFlight, p.id);
    DuplicationStep(MetaOf(c), r, n, p);
    ApplyStepPreserves(MetaOf(c), r, s.now, k);
    assert r.errors + [] == r.errors;
    AddAgrees(c, s, r, Record(n, p, s.now, Arriving), Adding(view, p, s.now), Step(s.now, k), []);
  }

  // ----- A packet comes off a link -----

  /** A record whose packet comes off link `l` now, with the link not known to have gone down meanwhile. */
  ghost predicate Landing(c: Config, s: State, l: LinkId, i: nat)
    requires ValidConfig(c)
  {
    && l in c.links && l in s.links && i < |s.log| && s.log[i].fate.InTransit? && s.log[i].fate.link == l
    && s.log[i].fate.arrival <= s.now && !After(s.links[l].lastDown, s.log[i].fate.sent)
    && TargetNode(c, l) in s.nodes
  }

  lemma LandingFacts(c: Config, s: State, r: ReplayState, l: LinkId, i: nat)
    requires ValidConfig(c) && Agrees(c, s, r) && Landing(c, s, l, i)
    ensures s.log[i].packet.id in r.inFlight && l in r.links && l in MetaOf(c).links
    ensures r.inFlight[s.log[i].packet.id] == InFlight(s.log[i].packet.size, s.log[i].fate.sent, 0, l)
    ensures s.log[i].fate.sent + c.links[l].delay <= s.now
    ensures s.links[l].lastDown.Some? ==> DownAt(s.trace, l, s.links[l].lastDown.value)
    ensures Since(r.links[l].lastDown, s.log[i].fate.sent) ==>
      Since(s.links[l].lastDown, s.log[i].fate.sent) || DownAt(s.trace, l, s.log[i].fate.sent)
    ensures DownAt(s.trace, l, s.log[i].fate.sent) ==> Since(r.links[l].lastDown, s.log[i].fate.sent)
  {
    hide ValidConfig, HoldingsMirrored, StatusMirrored, Accounted, RoutersFit, IdsUsed, RecordsPlaced, ErrorsExcused,
      UsageMirrored, IdsUnique, Pacing.Paced, Pacing.PacerCovers, WellFormed;
    assert FlightKnown(c, s.log[i].fate, s.links, r.links, s.trace, s.now);
    assert LinkMirrored(c, l, s.links[l], r.links[l], s.trace, s.now);
  }

  /** The errors the verifier tracks on such an arrival: at most one, and only for a Down update at the send. */
  lemma LandingErrors(c: Config, s: State, r: ReplayState, l: LinkId, i: nat)
    returns (errors: seq<NonFatalError>)
    requires ValidConfig(c) && Agrees(c, s, r) && Landing(c, s, l, i)
    ensures s.log[i].packet.id in r.inFlight && l in MetaOf(c).links
    ensures r.inFlight[s.log[i].packet.id] == InFlight(s.log[i].packet.size, s.log[i].fate.sent, 0, l)
    ensures s.log[i].fate.sent <= s.now
    ensures errors == ArrivalErrors(MetaOf(c), r, r.inFlight[s.log[i].packet.id], TargetNode(c, l), s.now)
    ensures ErrorsExcused(c, s.log, s.trace, errors)
    ensures errors != [] <==> DownAt(s.trace, l, s.log[i].fate.sent)
  {
    hide ValidConfig, Mirrored, StatusMirrored, LinksMirrored, FlightsKnown, Accounted, RoutersFit, IdsUsed,
      RecordsPlaced, ErrorsExcused, WellFormed, DownAt;
    var sent := s.log[i].fate.sent;
    LandingFacts(c, s, r, l, i);
    LandingExcused(c, s, l, sent, r.links[l]);
    errors := if Since(r.links[l].lastDown, sent)
              then [OfflinePacketReceive(TargetNode(c, l), l, sent, r.links[l].lastDown.value)] else [];
    assert [] + [] + errors == errors;
  }

  lemma LandingExcused(c: Config, s: State, l: LinkId, sent: Time, view: LinkView)
    requires ValidConfig(c) && l in c.links && l in s.links && !After(s.links[l].lastDown, sent)
    requires s.links[l].lastDown.Some? ==> DownAt(s.trace, l, s.links[l].lastDown.value)
    requires Since(view.lastDown, sent) ==> Since(s.links[l].lastDown, sent) || DownAt(s.trace, l, sent)
    ensures Since(view.lastDown, sent) ==> DownAt(s.trace, l, sent)
    ensures Since(view.lastDown, sent) ==>
      ErrorsExcused(c, s.log, s.trace, [OfflinePacketReceive(TargetNode(c, l), l, sent, view.lastDown.value)])
    ensures ErrorsExcused(c, s.log, s.trace, [])
  {
    hide ValidConfig, DownAt;
  }

  function Getting(view: NodeView, p: Packet, dropped: bool, now: Time): NodeView {
    var counted := view.(
      received := view.received.TrackOne(p.size),
      reordered := if p.number < view.highestReceived then view.reordered.TrackOne(p.size) else view.reordered,
      highestReceived := Max(view.highestReceived, p.number));
    if dropped then counted.(droppedDown := view.droppedDown.TrackOne(p.size)) else Adding(counted, p, now)
  }

  lemma LandingStep(meta: Meta, r: ReplayState, n: NodeId, p: Packet, dropped: bool)
    requires WellFormed(meta, r) && n in r.nodes && p.id in r.inFlight && p.id !in r.nodes[n].packets
    requires dropped <==> !r.nodes[n].up
    ensures r.inFlight[p.id].link in meta.links && r.inFlight[p.id].sentAt <= r.lastStepTime
    ensures ApplyStep(meta, r, r.lastStepTime, PacketInNode(p.id, p.number, p.size, n, dropped))
         == Running(r.(nodes := r.nodes[n := Getting(r.nodes[n], p, dropped, r.lastStepTime)],
                       inFlight := r.inFlight - {p.id},
                       errors := r.errors + ArrivalErrors(meta, r, r.inFlight[p.id], n, r.lastStepTime)))
  {
    var errors := ArrivalErrors(meta, r, r.inFlight[p.id], n, r.lastStepTime);
    hide WellFormed, ArrivalErrors;
    assert r.errors + errors + [] == r.errors + errors;
  }

  /** Taking a record off its link, on the simulator's side, before anything takes its place. */
  lemma LandAgrees(c: Config, s: State, r: ReplayState, i: nat, f: Fate)
    requires ValidConfig(c) && Agrees(c, s, r)
    requires i < |s.log| && s.log[i].fate.InTransit? && (f.Arrived? || f.LostInTransit?)
    ensures Agrees(c, SetFate(s, i, f), r.(inFlight := r.inFlight - {s.log[i].packet.id}))
    ensures NotLive(SetFate(s, i, f).log, s.log[i].packet.id)
  {
    hide ValidConfig, StatusMirrored, LinksMirrored, FlightsKnown, Accounted, ErrorsExcused, RoutersFit,
      IdsUsed, RecordsPlaced, NotLive, Mirrored, MetaOf;
    var anyStep := Step(s.now, PacketLostInTransit(0, 0));
    var log1 := s.log[i := s.log[i].(fate := f)];
    MirrorLand(s.log, r.nodes, r.inFlight, i, f);
    FateChanged(c, s.log, s.used, i, f);
    ErrorsStayExcused(c, s.log, log1, s.trace, anyStep, r.errors);
    FlightsStayKnown(c, s.log, log1, s.links, r.links, s.trace, anyStep, s.now);
    ChargeKept(c, s.nodes, s.log, i, f);
  }

  lemma ArriveFromLinkAgrees(c: Config, s: State, r: ReplayState, l: LinkId, i: nat)
    requires ValidConfig(c) && Agrees(c, s, r) && Landing(c, s, l, i) && NodeUp(s, TargetNode(c, l))
    ensures var p := s.log[i].packet;
      StepAgrees(c, r, PacketInNode(p.id, p.number, p.size, TargetNode(c, l), false),
                 Arrive(s, TargetNode(c, l), p, Some(i)))
  {
    hide ValidConfig, WellFormed, StatusMirrored, LinksMirrored, FlightsKnown, Accounted, RoutersFit,
      ApplyStep, IdsUsed, RecordsPlaced, NotLive, MetaOf, HoldingsMirrored, FlightsMirrored, UsageMirrored;
    var n, p := TargetNode(c, l), s.log[i].packet;
    var k := PacketInNode(p.id, p.number, p.size, n, false);
    var rec := Record(n, p, s.now, Arriving);
    var errors := LandingErrors(c, s, r, l, i);
    var s0, r0 := SetFate(s, i, Arrived), r.(inFlight := r.inFlight - {p.id});
    LandAgrees(c, s, r, i, Arrived);
    NodeKnown(c, s, r, n);
    AbsentIfNotLive(s0.log, r0.nodes, r0.inFlight, p.id);
    LandingStep(MetaOf(c), r, n, p, false);
    ApplyStepPreserves(MetaOf(c), r, s.now, k);
    UsedId(s.log, s.used, i);
    StillExcused(c, s, s0.log + [rec], Step(s.now, k), errors, i);
    AddAgrees(c, s0, r0, rec, Getting(r.nodes[n], p, false, s.now), Step(s.now, k), errors);
  }

  lemma UsedId(log: seq<Record>, used: set<PacketId>, i: nat)
    requires IdsUsed(log, used) && i < |log|
    ensures log[i].packet.id in used
  {
  }

  lemma StillExcused(c: Config, s: State, log1: seq<Record>, step: Step, errors: seq<NonFatalError>, i: nat)
    requires ValidConfig(c) && ErrorsExcused(c, s.log, s.trace, errors)
    requires i < |s.log| && !s.log[i].fate.Phantom? && s.log[i := s.log[i].(fate := Arrived)] <= log1
    ensures ErrorsExcused(c, log1, s.trace + [step], errors)
  {
    hide ValidConfig, ErrorsExcused;
    ErrorsStayExcused(c, s.log, log1, s.trace, step, errors);
  }

  lemma DropOnArrivalAgrees(c: Config, s: State, r: ReplayState, l: LinkId, i: nat)
    requires ValidConfig(c) && Agrees(c, s, r) && Landing(c, s, l, i) && !NodeUp(s, TargetNode(c, l))
    ensures var p := s.log[i].packet;
      StepAgrees(c, r, PacketInNode(p.id, p.number, p.size, TargetNode(c, l), true),
                 ArriveWhileDown(s, TargetNode(c, l), p, Some(i)))
  {
    hide ValidConfig, WellFormed, StatusMirrored, LinksMirrored, FlightsKnown, Accounted, RoutersFit,
      ApplyStep, IdsUsed, RecordsPlaced, NotLive, MetaOf, HoldingsMirrored, FlightsMirrored, UsageMirrored;
    var n, p := TargetNode(c, l), s.log[i].packet;
    var k := PacketInNode(p.id, p.number, p.size, n, true);
    var rec := Record(n, p, s.now, DroppedOnArrival);
    var errors := LandingErrors(c, s, r, l, i);
    var s0, r0 := SetFate(s, i, Arrived), r.(inFlight := r.inFlight - {p.id});
    LandAgrees(c, s, r, i, Arrived);
    NodeKnown(c, s, r, n);
    AbsentIfNotLive(s0.log, r0.nodes, r0.inFlight, p.id);
    LandingStep(MetaOf(c), r, n, p, true);
    ApplyStepPreserves(MetaOf(c), r, s.now, k);
    UsedId(s.log, s.used, i);
    StillExcused(c, s, s0.log + [rec], Step(s.now, k), errors, i);
    NoteAgrees(c, s0, r0, rec, Getting(r.nodes[n], p, true, s.now), Step(s.now, k), errors);
  }

  /** The effect on both sides of one more record that is no packet's whereabouts. */
  lemma NoteAgrees(c: Config, s: State, r: ReplayState, rec: Record, view: NodeView, step: Step,
                   errors: seq<NonFatalError>)
    requires ValidConfig(c) && Agrees(c, s, r)
    requires rec.node in r.nodes && rec.node in c.nodes && rec.packet.id in s.used && rec.fate.DroppedOnArrival?
    requires view.packets == r.nodes[rec.node].packets && view.bufferUsage == r.nodes[rec.node].bufferUsage
    requires view.up == r.nodes[rec.node].up && view.lastBufferClear == r.nodes[rec.node].lastBufferClear
    requires view.maxBufferUsage == r.nodes[rec.node].maxBufferUsage
    requires !IsLinkDown(step.kind) && ErrorsExcused(c, s.log + [rec], s.trace + [step], errors)
    requires WellFormed(MetaOf(c), r.(nodes := r.nodes[rec.node := view], errors := r.errors + errors))
    ensures Agrees(c, s.(log := s.log + [rec], trace := s.trace + [step]),
                   r.(nodes := r.nodes[rec.node := view], errors := r.errors + errors))
  {
    hide ValidConfig, WellFormed, StatusMirrored, LinksMirrored, FlightsKnown, Accounted, RoutersFit,
      IdsUsed, RecordsPlaced, Mirrored, MetaOf;
    RecordAppended(c, s.log, s.used, rec);
    MirrorNote(s.log, r.nodes, r.inFlight, rec);
    MirrorSameHoldings(s.log + [rec], r.nodes, r.inFlight, rec.node, view);
    CarryOver(c, s, r, s.log + [rec], rec.node, view, step);
    ChargeUnchanged(c, s.nodes, s.log, rec);
  }

  /** Counters and statuses do not matter to the mirror. */
  lemma MirrorSameHoldings(log: seq<Record>, nodes: map<NodeId, NodeView>, inFlight: map<PacketId, InFlight>,
                           n: NodeId, view: NodeView)
    requires Mirrored(log, nodes, inFlight) && n in nodes
    requires view.packets == nodes[n].packets && view.bufferUsage == nodes[n].bufferUsage
    ensures Mirrored(log, nodes[n := view], inFlight)
  {
    var nodes1 := nodes[n := view];
    assert forall m :: m in nodes1 ==> nodes1[m].packets == nodes[m].packets;
    forall m, id | m in nodes1 && id in nodes1[m].packets
      ensures exists i :: HeldAt(log, i, m, id)
    {
      assert id in nodes[m].packets;
    }
  }

  lemma LoseAgrees(c: Config, s: State, r: ReplayState, l: LinkId, i: nat)
    requires ValidConfig(c) && Agrees(c, s, r)
    requires i < |s.log| && s.log[i].fate.InTransit?
    ensures StepAgrees(c, r, PacketLostInTransit(s.log[i].packet.id, l), Lost(s, l, i))
  {
    hide ValidConfig, WellFormed, StatusMirrored, LinksMirrored, FlightsKnown, Accounted, ErrorsExcused, RoutersFit,
      IdsUsed, RecordsPlaced, NotLive, MetaOf, HoldingsMirrored, UsageMirrored;
    var k := PacketLostInTransit(s.log[i].packet.id, l);
    var s0 := SetFate(s, i, LostInTransit);
    LandAgrees(c, s, r, i, LostInTransit);
    ApplyStepPreserves(MetaOf(c), r, s.now, k);
    assert s0.log[i].packet == s.log[i].packet;
    ErrorsStayExcused(c, s0.log, s0.log, s.trace, Step(s.now, k), r.errors);
    LinksStayMirrored(c, s.links, r.links, s.trace, Step(s.now, k), s.now);
    FlightsStayKnown(c, s0.log, s0.log, s.links, r.links, s.trace, Step(s.now, k), s.now);
  }

  // ----- A packet leaves its node -----

  lemma HeldInView(s: State, r: ReplayState, i: nat)
    requires Mirrored(s.log, r.nodes, r.inFlight) && i < |s.log| && IsHeld(s.log[i].fate)
    ensures var n, id := s.log[i].node, s.log[i].packet.id;
      && n in r.nodes && id in r.nodes[n].packets
      && r.nodes[n].packets[id] == HeldPacket(s.log[i].since, s.log[i].packet.size, 0)
  {
  }

  lemma DropStep(meta: Meta, r: ReplayState, n: NodeId, id: PacketId, reason: DropReason)
    returns (view: NodeView)
    requires WellFormed(meta, r) && n in r.nodes && id in r.nodes[n].packets
    ensures ApplyStep(meta, r, r.lastStepTime, PacketDropped(id, n, reason)) == Running(r.(nodes := r.nodes[n := view]))
    ensures LetsGo(r.nodes[n], view, id) && OnlyHoldingsDiffer(r.nodes[n], view)
  {
    assert r.errors + [] == r.errors;
    view := NodeReplay.Dropped(r.nodes[n], id, reason).node;
  }

  lemma ReadStep(meta: Meta, r: ReplayState, n: NodeId, p: Packet)
    returns (view: NodeView)
    requires WellFormed(meta, r) && n in r.nodes && p.id in r.nodes[n].packets
    ensures ApplyStep(meta, r, r.lastStepTime, PacketDeliveredToApplication(p.id, p.number, p.size, n))
         == Running(r.(nodes := r.nodes[n := view]))
    ensures LetsGo(r.nodes[n], view, p.id) && OnlyHoldingsDiffer(r.nodes[n], view)
  {
    assert r.errors + [] == r.errors;
    view := Delivered(r.nodes[n], p.id).node;
  }

  predicate OnlyHoldingsDiffer(before: NodeView, after: NodeView) {
    && after.up == before.up && after.lastBufferClear == before.lastBufferClear
    && after.maxBufferUsage == before.maxBufferUsage
  }

  lemma RemoveAgrees(c: Config, s: State, r: ReplayState, i: nat, f: Fate, view: NodeView, step: Step)
    requires ValidConfig(c) && Agrees(c, s, r)
    requires i < |s.log| && IsHeld(s.log[i].fate) && !s.log[i].fate.Phantom? && !IsLive(f)
    requires Counts(Charged, s.log[i].fate) <==> Counts(Charged, f)
    requires s.log[i].node in r.nodes && LetsGo(r.nodes[s.log[i].node], view, s.log[i].packet.id)
    requires OnlyHoldingsDiffer(r.nodes[s.log[i].node], view) && !IsLinkDown(step.kind)
    requires WellFormed(MetaOf(c), r.(nodes := r.nodes[s.log[i].node := view]))
    ensures Agrees(c, SetFate(s, i, f).(trace := s.trace + [step]), r.(nodes := r.nodes[s.log[i].node := view]))
  {
    hide ValidConfig, WellFormed, StatusMirrored, LinksMirrored, FlightsKnown, Accounted, ErrorsExcused, RoutersFit,
      IdsUsed, RecordsPlaced, Mirrored, MetaOf, LetsGo;
    FateChanged(c, s.log, s.used, i, f);
    MirrorRemove(s.log, r.nodes, r.inFlight, i, f, view);
    CarryOver(c, s, r, s.log[i := s.log[i].(fate := f)], s.log[i].node, view, step);
    ChargeKept(c, s.nodes, s.log, i, f);
  }

  lemma DropAgrees(c: Config, s: State, r: ReplayState, i: nat, reason: DropReason)
    requires ValidConfig(c) && Agrees(c, s, r) && i < |s.log|
    requires if reason.BufferCleared? then s.log[i].fate.Buffered? else s.log[i].fate.Arriving?
    ensures StepAgrees(c, r, PacketDropped(s.log[i].packet.id, s.log[i].node, reason), Drop(s, i, reason))
  {
    hide ValidConfig, WellFormed, StatusMirrored, LinksMirrored, FlightsKnown, Accounted, RoutersFit,
      ApplyStep, IdsUsed, RecordsPlaced, NotLive, MetaOf, HoldingsMirrored, FlightsMirrored, UsageMirrored, Mirrored;
    var n, id := s.log[i].node, s.log[i].packet.id;
    var k := PacketDropped(id, n, reason);
    HeldInView(s, r, i);
    var view := DropStep(MetaOf(c), r, n, id, reason);
    ApplyStepPreserves(MetaOf(c), r, s.now, k);
    RemoveAgrees(c, s, r, i, if reason.BufferCleared? then Cleared else Simulator.Dropped, view, Step(s.now, k));
  }

  lemma ReadAgrees(c: Config, s: State, r: ReplayState, i: nat)
    requires ValidConfig(c) && Agrees(c, s, r) && i < |s.log| && s.log[i].fate.AtApp?
    ensures var rec := s.log[i];
      StepAgrees(c, r, PacketDeliveredToApplication(rec.packet.id, rec.packet.number, rec.packet.size, rec.node),
                 ReadByHost(s, i))
  {
    hide ValidConfig, WellFormed, StatusMirrored, LinksMirrored, FlightsKnown, Accounted, RoutersFit,
      ApplyStep, IdsUsed, RecordsPlaced, NotLive, MetaOf, HoldingsMirrored, FlightsMirrored, UsageMirrored, Mirrored;
    var n, p := s.log[i].node, s.log[i].packet;
    var k := PacketDeliveredToApplication(p.id, p.number, p.size, n);
    HeldInView(s, r, i);
    var view := ReadStep(MetaOf(c), r, n, p);
    ApplyStepPreserves(MetaOf(c), r, s.now, k);
    RemoveAgrees(c, s, r, i, Read, view, Step(s.now, k));
  }

  // ----- Silent moves -----

  lemma KeepAgrees(c: Config, s: State, r: ReplayState, i: nat, f: Fate)
    requires ValidConfig(c) && Agrees(c, s, r) && i < |s.log|
    requires IsHeld(s.log[i].fate) && !s.log[i].fate.Phantom? && IsHeld(f) && !f.Phantom?
    requires Counts(Charged, s.log[i].fate) <==> Counts(Charged, f)
    requires f.AtApp? ==> s.log[i].node in c.nodes && c.nodes[s.log[i].node].kind.Host?
    ensures Agrees(c, SetFate(s, i, f), r)
  {
    hide ValidConfig, WellFormed, StatusMirrored, LinksMirrored, FlightsKnown, Accounted, ErrorsExcused, RoutersFit,
      IdsUsed, RecordsPlaced, Mirrored, MetaOf;
    var log1 := s.log[i := s.log[i].(fate := f)];
    var anyStep := Step(s.now, PacketLostInTransit(0, 0));
    FateChanged(c, s.log, s.used, i, f);
    MirrorKeep(s.log, r.nodes, r.inFlight, i, f);
    ErrorsStayExcused(c, s.log, log1, s.trace, anyStep, r.errors);
    FlightsStayKnown(c, s.log, log1, s.links, r.links, s.trace, anyStep, s.now);
    ChargeKept(c, s.nodes, s.log, i, f);
  }

  lemma ChargeReserved(c: Config, s: State, i: nat)
    requires Accounted(c, s.nodes, s.log) && i < |s.log| && s.log[i].node in s.nodes && s.log[i].fate.Arriving?
    requires s.log[i].packet.size <= s.nodes[s.log[i].node].available
    ensures Accounted(c, Reserve(s, i).nodes, Reserve(s, i).log)
  {
    var s1 := Reserve(s, i);
    forall n | n in s1.nodes
      ensures n in c.nodes && s1.nodes[n].available + Bytes(s1.log, n, Charged) == c.nodes[n].bufferSize
    {
      BytesUpdate(s.log, i, Buffered, n, Charged);
    }
  }

  lemma ReserveAgrees(c: Config, s: State, r: ReplayState, i: nat)
    requires ValidConfig(c) && Agrees(c, s, r)
    requires i < |s.log| && s.log[i].node in s.nodes && s.log[i].fate.Arriving?
    requires s.log[i].packet.size <= s.nodes[s.log[i].node].available
    ensures Agrees(c, Reserve(s, i), r)
  {
    hide ValidConfig, WellFormed, LinksMirrored, FlightsKnown, Accounted, ErrorsExcused, RoutersFit,
      IdsUsed, RecordsPlaced, Mirrored, MetaOf;
    var log1 := s.log[i := s.log[i].(fate := Buffered)];
    var anyStep := Step(s.now, PacketLostInTransit(0, 0));
    FateChanged(c, s.log, s.used, i, Buffered);
    MirrorKeep(s.log, r.nodes, r.inFlight, i, Buffered);
    ErrorsStayExcused(c, s.log, log1, s.trace, anyStep, r.errors);
    FlightsStayKnown(c, s.log, log1, s.links, r.links, s.trace, anyStep, s.now);
    ChargeReserved(c, s, i);
  }

  /** The two maps differ in nothing but queues and tasks. */
  predicate OnlyRequeued(s: State, s1: State) {
    && s1 == s.(nodes := s1.nodes, links := s1.links, crashed := s1.crashed)
    && s1.nodes.Keys == s.nodes.Keys && s1.links.Keys == s.links.Keys
    && (forall n :: n in s.nodes ==>
          && s1.nodes[n].status == s.nodes[n].status && s1.nodes[n].available == s.nodes[n].available
          && s1.nodes[n].lastBufferClear == s.nodes[n].lastBufferClear)
    && (forall l :: l in s.links ==>
          && s1.links[l].status == s.links[l].status && s1.links[l].lastDown == s.links[l].lastDown
          && s1.links[l].sendDone == s.links[l].sendDone)
  }

  lemma LinksRequeued(c: Config, s: State, s1: State, views: map<LinkId, LinkView>)
    requires OnlyRequeued(s, s1) && LinksMirrored(c, s.links, views, s.trace, s.now)
    requires FlightsKnown(c, s.log, s.links, views, s.trace, s.now)
    ensures LinksMirrored(c, s1.links, views, s1.trace, s1.now)
    ensures FlightsKnown(c, s1.log, s1.links, views, s1.trace, s1.now)
  {
    forall l | l in s1.links
      ensures l in views && l in c.links && LinkMirrored(c, l, s1.links[l], views[l], s.trace, s.now)
    {
      assert LinkMirrored(c, l, s.links[l], views[l], s.trace, s.now);
    }
    forall i | 0 <= i < |s.log| && s.log[i].fate.InTransit?
      ensures FlightKnown(c, s.log[i].fate, s1.links, views, s.trace, s.now)
    {
      assert FlightKnown(c, s.log[i].fate, s.links, views, s.trace, s.now);
    }
  }

  lemma NodesRequeued(c: Config, s: State, s1: State, views: map<NodeId, NodeView>)
    requires OnlyRequeued(s, s1) && StatusMirrored(s.nodes, views) && Accounted(c, s.nodes, s.log)
    ensures StatusMirrored(s1.nodes, views) && Accounted(c, s1.nodes, s1.log)
  {
  }

  /** Queues and tasks are no concern of the verifier's. */
  lemma RequeueAgrees(c: Config, s: State, r: ReplayState, s1: State)
    requires ValidConfig(c) && Agrees(c, s, r) && OnlyRequeued(s, s1)
    ensures Agrees(c, s1, r)
  {
    hide ValidConfig, WellFormed, LinksMirrored, FlightsKnown, ErrorsExcused, RoutersFit, IdsUsed, RecordsPlaced,
      Mirrored, MetaOf, StatusMirrored, Accounted;
    LinksRequeued(c, s, s1, r.links);
    NodesRequeued(c, s, s1, r.nodes);
  }
}
