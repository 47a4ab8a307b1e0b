/** Each stay of a packet in a node ends at most once, whichever and however many links it was offered to. */
module Conservation {
  import opened Types
  import opened Network
  import opened Simulator
  import opened LinkTasks
  import opened Sanity
  import opened Runs
  import opened RunStates
  import opened AgreementRuns
  import Pacing

  /** How a stay can end, other than within `Forward`. */
  datatype Ending = BySend | ByWipe | ByRead

  /** The trace step that records such an ending for packet `id` in node `n`. */
  predicate StepEnds(k: StepKind, e: Ending, n: NodeId, id: PacketId) {
    match e
    case BySend => k.PacketInTransit? && k.node == n && k.packet == id
    case ByWipe => k.PacketDropped? && k.reason.BufferCleared? && k.node == n && k.packet == id
    case ByRead => k.PacketDeliveredToApplication? && k.node == n && k.packet == id
  }

  predicate FateEnds(f: Fate, e: Ending) {
    match e
    case BySend => f.InTransit? || f.Arrived? || f.LostInTransit?
    case ByWipe => f.Cleared?
    case ByRead => f.Read?
  }

  predicate RecordEnds(r: Record, e: Ending, n: NodeId, id: PacketId) {
    r.node == n && r.packet.id == id && FateEnds(r.fate, e)
  }

  function One(b: bool): nat {
    if b then 1 else 0
  }

  function CountSteps(trace: seq<Step>, e: Ending, n: NodeId, id: PacketId): nat {
    if trace == [] then 0
    else CountSteps(trace[..|trace| - 1], e, n, id) + One(StepEnds(trace[|trace| - 1].kind, e, n, id))
  }

  /** How many stays of the packet in the node ended that way; each stay counts once at most. */
  function CountStays(log: seq<Record>, e: Ending, n: NodeId, id: PacketId): nat {
    if log == [] then 0
    else CountStays(log[..|log| - 1], e, n, id) + One(RecordEnds(log[|log| - 1], e, n, id))
  }

  function AllStays(log: seq<Record>, n: NodeId, id: PacketId): nat {
    if log == [] then 0
    else AllStays(log[..|log| - 1], n, id) + One(log[|log| - 1].node == n && log[|log| - 1].packet.id == id)
  }

  ghost predicate Counted(s: State) {
    forall e, n, id :: CountSteps(s.trace, e, n, id) == CountStays(s.log, e, n, id)
  }

  lemma StepsAppend(trace: seq<Step>, step: Step, e: Ending, n: NodeId, id: PacketId)
    ensures CountSteps(trace + [step], e, n, id) == CountSteps(trace, e, n, id) + One(StepEnds(step.kind, e, n, id))
  {
    assert (trace + [step])[..|trace + [step]| - 1] == trace;
  }

  lemma StaysAppend(log: seq<Record>, r: Record, e: Ending, n: NodeId, id: PacketId)
    ensures CountStays(log + [r], e, n, id) == CountStays(log, e, n, id) + One(RecordEnds(r, e, n, id))
  {
    assert (log + [r])[..|log + [r]| - 1] == log;
  }

  lemma {:induction false} StaysUpdate(log: seq<Record>, i: nat, f: Fate, e: Ending, n: NodeId, id: PacketId)
    requires i < |log|
    ensures CountStays(log[i := log[i].(fate := f)], e, n, id) + One(RecordEnds(log[i], e, n, id))
         == CountStays(log, e, n, id) + One(RecordEnds(log[i].(fate := f), e, n, id))
  {
    var log1 := log[i := log[i].(fate := f)];
    if i == |log| - 1 {
      assert log1[..|log| - 1] == log[..|log| - 1];
    } else {
      StaysUpdate(log[..|log| - 1], i, f, e, n, id);
      assert log1[..|log| - 1] == log[..|log| - 1][i := log[i].(fate := f)];
    }
  }

  lemma {:induction false} EndedStaysAreStays(log: seq<Record>, n: NodeId, id: PacketId)
    ensures CountStays(log, BySend, n, id) + CountStays(log, ByWipe, n, id) + CountStays(log, ByRead, n, id)
         <= AllStays(log, n, id)
  {
    if log != [] {
      EndedStaysAreStays(log[..|log| - 1], n, id);
    }
  }

  // ----- Moves -----

  ghost predicate RecordsNoEnd(k: StepKind) {
    forall e, n, id :: !StepEnds(k, e, n, id)
  }

  /** A fate change that ends no stay, with or without a step that records none. */
  lemma QuietChange(s: State, s1: State, i: nat, f: Fate)
    requires Counted(s) && i < |s.log| && s1.log == s.log[i := s.log[i].(fate := f)]
    requires forall e :: FateEnds(s.log[i].fate, e) <==> FateEnds(f, e)
    requires s1.trace == s.trace || (exists step :: s1.trace == s.trace + [step] && RecordsNoEnd(step.kind))
    ensures Counted(s1)
  {
    forall e, n, id
      ensures CountSteps(s1.trace, e, n, id) == CountStays(s1.log, e, n, id)
    {
      StaysUpdate(s.log, i, f, e, n, id);
      if s1.trace != s.trace {
        var step :| s1.trace == s.trace + [step] && RecordsNoEnd(step.kind);
        StepsAppend(s.trace, step, e, n, id);
      }
    }
  }

  /** A stay ends, and the step says so. */
  lemma RecordedEnd(s: State, s1: State, i: nat, f: Fate, k: StepKind)
    requires Counted(s) && i < |s.log| && s1.log == s.log[i := s.log[i].(fate := f)]
    requires s1.trace == s.trace + [Step(s.now, k)]
    requires forall e :: !FateEnds(s.log[i].fate, e)
    requires forall e, n, id :: StepEnds(k, e, n, id) <==>
      FateEnds(f, e) && s.log[i].node == n && s.log[i].packet.id == id
    ensures Counted(s1)
  {
    forall e, n, id
      ensures CountSteps(s1.trace, e, n, id) == CountStays(s1.log, e, n, id)
    {
      StaysUpdate(s.log, i, f, e, n, id);
      StepsAppend(s.trace, Step(s.now, k), e, n, id);
    }
  }

  lemma NewStay(s: State, s1: State, r: Record, k: StepKind)
    requires Counted(s) && s1.log == s.log + [r] && s1.trace == s.trace + [Step(s.now, k)]
    requires forall e :: !FateEnds(r.fate, e)
    requires forall e, n, id :: !StepEnds(k, e, n, id)
    ensures Counted(s1)
  {
    forall e, n, id
      ensures CountSteps(s1.trace, e, n, id) == CountStays(s1.log, e, n, id)
    {
      StaysAppend(s.log, r, e, n, id);
      StepsAppend(s.trace, Step(s.now, k), e, n, id);
    }
  }

  lemma DropCounted(s: State, i: nat, reason: DropReason)
    requires Counted(s) && i < |s.log| && (s.log[i].fate.Arriving? || s.log[i].fate.Buffered?)
    ensures Counted(Drop(s, i, reason))
  {
    hide Counted;
    RecordedEnd(s, Drop(s, i, reason), i, if reason.BufferCleared? then Cleared else Dropped,
                PacketDropped(s.log[i].packet.id, s.log[i].node, reason));
  }

  lemma EnqueueCounted(s: State, i: nat)
    requires Counted(s) && i < |s.log| && s.log[i].node in s.nodes && s.log[i].fate.Arriving?
    ensures Counted(EnqueueOutbound(s, i))
  {
    hide Counted;
    if s.log[i].packet.size <= s.nodes[s.log[i].node].available {
      QuietChange(s, Reserve(s, i), i, Buffered);
    } else {
      DropCounted(s, i, BufferFull);
    }
  }

  lemma OriginCounted(s: State, origin: Option<nat>)
    requires Counted(s) && (origin.Some? ==> origin.value < |s.log| && s.log[origin.value].fate.InTransit?)
    ensures Counted(if origin.Some? then SetFate(s, origin.value, Arrived) else s)
  {
    hide Counted;
    if origin.Some? {
      QuietChange(s, SetFate(s, origin.value, Arrived), origin.value, Arrived);
    }
  }

  lemma ArriveCounted(s: State, n: NodeId, p: Packet, origin: Option<nat>)
    requires Counted(s) && (origin.Some? ==> origin.value < |s.log| && s.log[origin.value].fate.InTransit?)
    ensures Counted(Arrive(s, n, p, origin)) && Counted(ArriveWhileDown(s, n, p, origin))
  {
    hide Counted;
    var s0 := if origin.Some? then SetFate(s, origin.value, Arrived) else s;
    OriginCounted(s, origin);
    NewStay(s0, Arrive(s, n, p, origin), Record(n, p, s.now, Arriving),
            PacketInNode(p.id, p.number, p.size, n, false));
    NewStay(s0, ArriveWhileDown(s, n, p, origin),
            Record(n, p, s.now, if origin.Some? then DroppedOnArrival else Phantom),
            PacketInNode(p.id, p.number, p.size, n, true));
  }

  lemma PlaceCounted(c: Config, s: State, i: nat, roll: Roll)
    requires ValidConfig(c) && Counted(s) && Sane(c, s) && i < |s.log| && s.log[i].fate.Arriving?
    requires s.log[i].node in s.nodes && s.log[i].node in c.nodes
    ensures Counted(Place(c, s, i, roll))
  {
    hide ValidConfig, Counted, Sane, EnqueueOutbound, IsEndpoint;
    QuietChange(s, SetFate(s, i, AtApp), i, AtApp);
    DropCounted(s, i, Random);
    EnqueueCounted(s, i);
    if roll.Duplicate? {
      var s1 := EnqueueOutbound(s, i);
      var n, p := s.log[i].node, s.log[i].packet.(id := roll.id);
      EnqueueSane(c, s, i);
      NewStay(s1, ArriveDuplicate(s1, n, p), Record(n, p, s1.now, Arriving),
              PacketDuplicated(p.id, p.number, p.size, n));
      EnqueueCounted(ArriveDuplicate(s1, n, p), |s.log|);
    }
  }

  lemma ForwardCounted(c: Config, s: State, n: NodeId, p: Packet, roll: Roll, origin: Option<nat>)
    requires ValidConfig(c) && Counted(s) && Sane(c, s) && n in s.nodes && n in c.nodes
    requires origin.Some? ==> origin.value < |s.log| && s.log[origin.value].fate.InTransit?
    ensures Counted(Forward(c, s, n, p, roll, origin))
  {
    hide ValidConfig, Counted, Sane, Place;
    ArriveCounted(s, n, p, origin);
    if NodeUp(s, n) {
      ArriveSane(c, s, n, p, origin);
      PlaceCounted(c, Arrive(s, n, p, origin), |s.log|, roll);
    }
  }

  lemma SameCounted(s: State, s1: State)
    requires Counted(s) && s1.log == s.log && s1.trace == s.trace
    ensures Counted(s1)
  {
  }

  lemma PreferCounted(c: Config, s: State, l: LinkId, o: Offer)
    requires Counted(s) && l in s.links && l in c.links && c.links[l].bandwidthBps > 0
    requires o.record < |s.log| && s.log[o.record].node in s.nodes
    ensures Counted(Prefer(c, s, l, o))
  {
    hide Counted, Pacing.TrackSend, ClearedFromBuffer;
    var s1 := Prefer(c, s, l, o);
    var r := s.log[o.record];
    if s1.log == s.log && s1.trace == s.trace {
      SameCounted(s, s1);
    } else if s1.log[o.record].fate.Stranded? {
      QuietChange(s, s1, o.record, Stranded);
    } else if s1.log[o.record].fate.Cleared? {
      DropCounted(s, o.record, BufferCleared);
      SameCounted(Drop(s, o.record, BufferCleared), s1);
    } else {
      RecordedEnd(s, s1, o.record, s1.log[o.record].fate, PacketInTransit(r.packet.id, r.node, l));
    }
  }

  predicate CanTake(s: State, l: LinkId)
    requires l in s.links
  {
    && s.links[l].queue != []
    && s.links[l].queue[0].record < |s.log|
    && s.log[s.links[l].queue[0].record].node in s.nodes
  }

  predicate CanResume(s: State, l: LinkId)
    requires l in s.links
  {
    var t := s.links[l].task;
    !t.Idle? && t.offer.record < |s.log| && s.log[t.offer.record].node in s.nodes
  }

  lemma LinkTaskCounted(c: Config, s: State, l: LinkId)
    requires Counted(s) && l in s.links && l in c.links && c.links[l].bandwidthBps > 0
    ensures CanTake(s, l) ==> Counted(TakeOffer(c, s, l))
    ensures CanResume(s, l) ==> Counted(Resume(c, s, l))
  {
    hide Counted, Prefer;
    if CanTake(s, l) {
      var s1 := PopOffer(s, l);
      SameCounted(s, s1);
      PreferCounted(c, s1, l, s.links[l].queue[0]);
      if !HasBandwidthAvailable(s.links[l], s.now) {
        SameCounted(s, TakeOffer(c, s, l));
      }
    }
    var t := s.links[l].task;
    if !t.Idle? && t.offer.record < |s.log| && s.log[t.offer.record].node in s.nodes {
      PreferCounted(c, s, l, t.offer);
      if Resume(c, s, l) != Prefer(c, s, l, t.offer) {
        SameCounted(s, Resume(c, s, l));
      }
    }
  }

  lemma {:induction false} OfferAllCounted(c: Config, s: State, i: nat, all: seq<LinkId>, links: seq<LinkId>,
                                           slow: seq<bool>)
    requires |slow| == |links| && forall l :: l in links ==> l in s.links && l in c.links
    ensures OfferAll(c, s, i, all, links, slow).log == s.log && OfferAll(c, s, i, all, links, slow).trace == s.trace
    decreases |links|
  {
    if links != [] {
      var o := Offer(i, all, if slow[0] then c.links[links[0]].extraDelay else 0);
      OfferAllCounted(c, OfferTo(s, links[0], o), i, all, links[1..], slow[1..]);
    }
  }

  lemma OfferNextCounted(c: Config, s: State, a: Action)
    requires ValidConfig(c) && Counted(s) && Sane(c, s) && Enabled(c, s, a) && a.RunNodeTask?
    ensures Counted(Perform(c, s, a))
  {
    OutboundKnown(c, s, a.node);
    hide ValidConfig, Counted, Sane, OfferAll, Candidates, Addresses;
    var i := s.nodes[a.node].outbound[0];
    var links := Candidates(c, a.node, s.log[i].packet.destination.ip);
    CandidatesStartHere(c, a.node, s.log[i].packet.destination.ip);
    OfferAllCounted(c, TakeOutbound(s, a.node), i, links, links, a.slow);
    SameCounted(s, Perform(c, s, a));
  }

  lemma EmitCounted(s: State, s1: State, k: StepKind)
    requires Counted(s) && s1.log == s.log && s1.trace == s.trace + [Step(s.now, k)]
    requires forall e, n, id :: !StepEnds(k, e, n, id)
    ensures Counted(s1)
  {
    forall e, n, id
      ensures CountSteps(s1.trace, e, n, id) == CountStays(s1.log, e, n, id)
    {
      StepsAppend(s.trace, Step(s.now, k), e, n, id);
    }
  }

  lemma ForwardingCounted(c: Config, s: State, a: Action)
    requires ValidConfig(c) && Counted(s) && Sane(c, s) && TasksWait(c, s) && Enabled(c, s, a)
    requires a.Create? || a.RunForwarder?
    ensures Counted(Perform(c, s, a))
  {
    hide ValidConfig, Counted, Forward, Sane, TasksWait;
    NodesKnownToBoth(c, s);
    if a.Create? {
      var p := Packet(a.id, s.nextNumber, a.size, a.destination);
      var s0 := s.(used := s.used + {p.id} + RollIds(a.roll), nextNumber := s.nextNumber + 1);
      UseMoreSane(c, s, s0);
      SameCounted(s, s0);
      ForwardCounted(c, s0, a.node, p, a.roll, None);
    } else {
      var l, i := a.link, a.record;
      var s0 := s.(used := s.used + RollIds(a.roll));
      UseMoreSane(c, s, s0);
      SameCounted(s, s0);
      TargetKnown(c, s, l);
      QuietChange(s0, Lost(s0, l, i), i, LostInTransit);
      ForwardCounted(c, s0, TargetNode(c, l), s.log[i].packet, a.roll, Some(i));
    }
  }

  lemma LinkTasksCounted(c: Config, s: State, a: Action)
    requires ValidConfig(c) && Counted(s) && Sane(c, s) && TasksWait(c, s) && Enabled(c, s, a)
    requires a.StartLinkTask? || a.ResumeLinkTask?
    ensures Counted(Perform(c, s, a))
  {
    hide ValidConfig, Counted, Sane, TasksWait, TakeOffer, Resume, Ready;
    if a.StartLinkTask? {
      StartSane(c, s, a.link);
    } else {
      ResumeSane(c, s, a.link);
      TaskOfferIsSane(c, s, a.link);
      NodesKnownToBoth(c, s);
    }
    LinkTaskCounted(c, s, a.link);
  }

  lemma PerformCounted(c: Config, s: State, a: Action)
    requires ValidConfig(c) && Counted(s) && Sane(c, s) && TasksWait(c, s) && Enabled(c, s, a)
    ensures Counted(Perform(c, s, a))
  {
    hide ValidConfig, Counted, Sane, TasksWait, CreatePacket, OfferNext, PerformOnLink;
    match a
    case Tick(_) => SameCounted(s, Perform(c, s, a));
    case Create(_, _, _, _, _) => ForwardingCounted(c, s, a);
    case RunForwarder(_, _, _) => ForwardingCounted(c, s, a);
    case RunNodeTask(_, _) => OfferNextCounted(c, s, a);
    case StartLinkTask(_) => LinkTasksCounted(c, s, a);
    case ResumeLinkTask(_) => LinkTasksCounted(c, s, a);
    case AppRead(i) =>
      var r := s.log[i];
      RecordedEnd(s, ReadByHost(s, i), i, Read,
        PacketDeliveredToApplication(r.packet.id, r.packet.number, r.packet.size, r.node));
    case LinkChange(e) => EmitCounted(s, ProcessLinkEvent(s, e), NetworkEvent(Some(e), None));
    case NodeChange(e) => EmitCounted(s, ProcessNodeEvent(s, e), NetworkEvent(None, Some(e)));
  }

  lemma {:induction false} RunsAreCounted(c: Config, run: seq<Action>)
    requires ValidConfig(c) && IsRun(c, run)
    ensures Counted(StateAfter(c, run).value)
  {
    hide ValidConfig, Sane, TasksWait, Enabled, Perform, Counted, AtRest;
    if run == [] {
      StartCounted(c);
    } else {
      RunSnoc(c, run);
      hide StateAfter;
      var init := run[..|run| - 1];
      RunsAreCounted(c, init);
      RunsAreSane(c, init);
      PerformCounted(c, StateAfter(c, init).value, run[|run| - 1]);
    }
  }

  lemma StartCounted(c: Config)
    ensures Counted(Start(c))
  {
  }

  /**
   * In every run, for every packet and node, the sends, wipes and reads that the trace records are
   * exactly the stays of the packet in the node that ended so, and together no more than its stays:
   * no stay is sent or wiped twice, over however many candidate links it was offered.
   */
  lemma EachStayEndsOnce(c: Config, run: seq<Action>, n: NodeId, id: PacketId)
    requires ValidConfig(c) && IsRun(c, run)
    ensures var s := StateAfter(c, run).value;
      && (forall e :: CountSteps(s.trace, e, n, id) == CountStays(s.log, e, n, id))
      && CountSteps(s.trace, BySend, n, id) + CountSteps(s.trace, ByWipe, n, id) + CountSteps(s.trace, ByRead, n, id)
         <= AllStays(s.log, n, id)
  {
    hide ValidConfig, StateAfter;
    RunsAreCounted(c, run);
    EndedStaysAreStays(StateAfter(c, run).value.log, n, id);
  }
}
