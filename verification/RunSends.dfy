/** The sends that the verifier counts for a link are those that the link made in the run, bit for bit. */
module RunSends {
  import opened Types
  import opened Network
  import opened Status
  import opened Simulator
  import opened BandwidthWindow
  import opened NodeReplay
  import opened Replay
  import opened ReplayTotals
  import opened Ledger
  import opened Agreement
  import opened AgreementRuns
  import opened LinkTasks
  import opened LinkMoves
  import opened Sanity
  import opened Runs
  import opened RunStates
  import opened LinkOrder
  import opened FifoRuns
  import opened ErrorCauses
  import opened LinkErrors
  import Devices
  import Pacing

  // ----- What one action adds -----

  lemma SortedPrefix(trace: seq<Step>, more: seq<Step>)
    requires TimeSorted(trace + more)
    ensures TimeSorted(trace)
  {
    assert forall i :: 0 <= i < |trace| ==> (trace + more)[i] == trace[i];
  }

  lemma OneMoreSend(meta: Meta, order: seq<NodeId>, trace: seq<Step>, step: Step, l: LinkId)
    requires ValidOrder(meta, order) && TimeSorted(trace + [step]) && TimeSorted(trace)
    requires ReplayTrace(meta, order, trace).Running?
    ensures SendsOver(meta, order, trace + [step], l)
         == SendsOver(meta, order, trace, l) + SendBy(ReplayTrace(meta, order, trace).st, step.time, step.kind, l)
  {
    hide ReplayTrace, ValidOrder, SendBy;
    assert (trace + [step])[..|trace + [step]| - 1] == trace;
  }

  lemma {:induction false} NoMoreSends(meta: Meta, order: seq<NodeId>, trace: seq<Step>, more: seq<Step>, l: LinkId)
    requires ValidOrder(meta, order) && TimeSorted(trace + more) && TimeSorted(trace)
    requires forall i :: 0 <= i < |more| ==> !(more[i].kind.PacketInTransit? && more[i].kind.link == l)
    ensures SendsOver(meta, order, trace + more, l) == SendsOver(meta, order, trace, l)
  {
    hide ReplayTrace, ValidOrder;
    if more == [] {
      assert trace + more == trace;
    } else {
      var init := more[..|more| - 1];
      assert (trace + more)[..|trace + more| - 1] == trace + init;
      assert trace + more == trace + init + [more[|more| - 1]];
      SortedPrefix(trace + init, [more[|more| - 1]]);
      NoMoreSends(meta, order, trace, init, l);
    }
  }

  lemma AgreesHolds(c: Config, s: State, r: ReplayState, i: nat)
    requires ValidConfig(c) && Agrees(c, s, r) && i < |s.log| && s.log[i].fate.Buffered?
    ensures var rec := s.log[i];
      && rec.node in r.nodes && rec.packet.id in r.nodes[rec.node].packets
      && r.nodes[rec.node].packets[rec.packet.id].size == rec.packet.size
  {
    hide ValidConfig, StatusMirrored, LinksMirrored, FlightsKnown, Accounted, RoutersFit, RecordsPlaced, ErrorsExcused,
      WellFormed, IdsUsed, FlightsMirrored, IdsUnique, UsageMirrored;
  }

  /** The verifier knows the size of a packet that is about to be sent. */
  lemma SendKnown(c: Config, order: seq<NodeId>, s: State, i: nat, l: LinkId)
    requires ValidConfig(c) && Tracked(c, order, s) && i < |s.log| && s.log[i].fate.Buffered?
    ensures Replays(c, order, s)
    ensures var rec := s.log[i];
      SendBy(ReplayTrace(MetaOf(c), order, s.trace).st, s.now, PacketInTransit(rec.packet.id, rec.node, l), l)
      == [Send(s.now, rec.packet.size * 8)]
  {
    hide ValidConfig, Agrees, ReplayTrace, ValidOrder, AdvanceTo, WellFormed;
    AgreesHolds(c, s, Present(c, order, s), i);
    AdvanceKeepsSends(MetaOf(c), order, ReplayTrace(MetaOf(c), order, s.trace).st, s.now, l);
  }

  /** What the verifier counts for the link is what the link sent. */
  ghost predicate Seen(c: Config, order: seq<NodeId>, s: State, l: LinkId, sent: seq<Departure>)
    requires ValidConfig(c) && ValidOrder(MetaOf(c), order)
  {
    TimeSorted(s.trace) && SendsOver(MetaOf(c), order, s.trace, l) == Pacing.SendsOf(PacedOf(sent))
  }

  lemma SendSeen(c: Config, order: seq<NodeId>, s: State, s1: State, l: LinkId, t: Ticket, sent: seq<Departure>,
                 d: Departure)
    requires ValidConfig(c) && ValidOrder(MetaOf(c), order) && Tracked(c, order, s) && Seen(c, order, s, l, sent)
    requires l in s.links && l in c.links && c.links[l].bandwidthBps > 0 && t.record < |s.log| && Goes(c, s, s1, l, t)
    requires d.time == s.now && d.packet == s.log[t.record].packet && TimeSorted(s1.trace)
    ensures Seen(c, order, s1, l, sent + [d])
  {
    hide ValidConfig, ValidOrder, Tracked, ReplayTrace, SendsOver, SendBy, Pacing.CanSend, Pacing.TrackSend;
    var rec := s.log[t.record];
    SendKnown(c, order, s, t.record, l);
    OneMoreSend(MetaOf(c), order, s.trace, Step(s.now, PacketInTransit(rec.packet.id, rec.node, l)), l);
    assert Pacing.SendsOf(PacedOf(sent + [d])) == Pacing.SendsOf(PacedOf(sent)) + [Send(s.now, rec.packet.size * 8)];
  }

  /** The steps of an action that does not send over the link hold no send over it. */
  lemma OthersSendNothing(c: Config, s: State, a: Action, kinds: seq<StepKind>, l: LinkId)
    requires ValidConfig(c) && Sane(c, s) && TasksWait(c, s) && Enabled(c, s, a)
    requires Adds(s, Perform(c, s, a), kinds) && !SendsNow(c, s, a, l)
    ensures forall i :: 0 <= i < |kinds| ==> !(kinds[i].PacketInTransit? && kinds[i].link == l)
  {
    hide ValidConfig, Sane, TasksWait, Enabled, Perform, WillSend, FirstRecord, RecordsSend;
    forall i | 0 <= i < |kinds| && kinds[i].PacketInTransit?
      ensures kinds[i].link != l
    {
      AddedSend(s, Perform(c, s, a), kinds, i);
      SendsExactly(c, s, a, kinds[i].packet, kinds[i].node, kinds[i].link);
    }
  }

  lemma AddedSend(s: State, s1: State, kinds: seq<StepKind>, i: nat)
    requires Adds(s, s1, kinds) && i < |kinds| && kinds[i].PacketInTransit?
    ensures RecordsSend(s, s1, kinds[i].packet, kinds[i].node, kinds[i].link)
  {
    assert s1.trace[|s.trace| + i].kind == kinds[i];
  }

  lemma OthersSeen(c: Config, order: seq<NodeId>, s: State, a: Action, l: LinkId, sent: seq<Departure>)
    requires ValidConfig(c) && ValidOrder(MetaOf(c), order) && Sane(c, s) && TasksWait(c, s) && Enabled(c, s, a)
    requires Seen(c, order, s, l, sent) && !SendsNow(c, s, a, l) && TimeSorted(Perform(c, s, a).trace)
    ensures Seen(c, order, Perform(c, s, a), l, sent)
  {
    hide ValidConfig, ValidOrder, Sane, TasksWait, Enabled, Perform, SendsNow, SendsOver, Pacing.SendsOf;
    var kinds := ActionAdds(c, s, a);
    OthersSendNothing(c, s, a, kinds, l);
    NoMoreSends(MetaOf(c), order, s.trace, Devices.StepsAt(kinds, s.now), l);
  }

  lemma LastDescribed(log: seq<Record>, log1: seq<Record>, sent: seq<Departure>)
    requires Describes(log1, sent) && PacketsKept(log, log1) && sent != [] && sent[|sent| - 1].ticket.record < |log|
    ensures sent[|sent| - 1].packet == log[sent[|sent| - 1].ticket.record].packet
  {
  }

  lemma GoesKeepsPackets(c: Config, s: State, s1: State, l: LinkId, t: Ticket)
    requires l in s.links && l in c.links && c.links[l].bandwidthBps > 0 && t.record < |s.log| && Goes(c, s, s1, l, t)
    ensures PacketsKept(s.log, s1.log)
  {
    hide Pacing.CanSend, Pacing.TrackSend;
  }

  lemma OwnSendSeen(c: Config, order: seq<NodeId>, s: State, a: Action, l: LinkId, sent: seq<Departure>,
                    sent1: seq<Departure>)
    requires ValidConfig(c) && ValidOrder(MetaOf(c), order) && Sane(c, s) && TasksWait(c, s) && Enabled(c, s, a)
    requires Tracked(c, order, s) && Seen(c, order, s, l, sent) && SendsNow(c, s, a, l)
    requires |sent1| == |sent| + 1 && sent1[..|sent|] == sent && Leaves(c, s, a, sent1[|sent|])
    requires Describes(Perform(c, s, a).log, sent1) && TimeSorted(Perform(c, s, a).trace)
    ensures Seen(c, order, Perform(c, s, a), l, sent1)
  {
    hide ValidConfig, ValidOrder, Sane, TasksWait, Enabled, Perform, Tracked, Seen, WillSend, LinkActionOutcome, Goes,
      Tickets, Describes, PacketsKept;
    var s1, d := Perform(c, s, a), sent1[|sent|];
    LinkTaskOutcome(c, s, a);
    OutcomeGoes(c, s, a, s1);
    GoesKeepsPackets(c, s, s1, l, d.ticket);
    LastDescribed(s.log, s1.log, sent1);
    SendSeen(c, order, s, s1, l, d.ticket, sent, d);
    assert sent1 == sent + [d];
  }

  lemma NextSeen(c: Config, order: seq<NodeId>, s: State, a: Action, l: LinkId, sent: seq<Departure>,
                 sent1: seq<Departure>)
    requires ValidConfig(c) && ValidOrder(MetaOf(c), order) && Sane(c, s) && TasksWait(c, s) && Enabled(c, s, a)
    requires Tracked(c, order, s) && Seen(c, order, s, l, sent)
    requires if SendsNow(c, s, a, l) then |sent1| == |sent| + 1 && sent1[..|sent|] == sent && Leaves(c, s, a, sent1[|sent|])
             else sent1 == sent
    requires Describes(Perform(c, s, a).log, sent1) && TimeSorted(Perform(c, s, a).trace)
    ensures Seen(c, order, Perform(c, s, a), l, sent1)
  {
    hide ValidConfig, ValidOrder, Sane, TasksWait, Enabled, Perform, Tracked, Seen, SendsNow, Leaves, Describes;
    if SendsNow(c, s, a, l) {
      OwnSendSeen(c, order, s, a, l, sent, sent1);
    } else {
      OthersSeen(c, order, s, a, l, sent);
    }
  }

  // ----- Whole runs -----

  lemma TrackedIsSorted(c: Config, order: seq<NodeId>, s: State)
    requires ValidConfig(c) && Tracked(c, order, s)
    ensures TimeSorted(s.trace)
  {
    hide ValidConfig, Agrees;
  }

  lemma OrderedDescribes(c: Config, s: State, l: LinkId, offers: seq<Ticket>, done: nat, sent: seq<Departure>)
    requires l in c.links && c.links[l].bandwidthBps > 0 && l in s.links && Ordered(c, s, l, offers, done, sent)
    ensures Describes(s.log, sent) && InQueueOrder(offers, done, sent)
    ensures TransitsOver(s.trace, l) == StepsOf(sent, l)
    ensures Pacing.PacerAfter(PacedOf(sent), c.links[l].bandwidthBps).Some?
  {
    hide Describes, Tickets, TransitsOver, StepsOf, Pacing.PacerAfter;
  }

  lemma NothingSeen(c: Config, order: seq<NodeId>, l: LinkId)
    requires ValidConfig(c) && ValidOrder(MetaOf(c), order)
    ensures Seen(c, order, Start(c), l, [])
  {
    assert Pacing.SendsOf(PacedOf([])) == [];
    hide ValidConfig;
  }

  /** A packet's way onto a link: when it went, from where, and which packet it was. */
  datatype Transit = Transit(time: Time, node: NodeId, packet: Packet)

  /** All that a run sends over the link, action by action. */
  ghost function TransitsBy(c: Config, run: seq<Action>, l: LinkId): seq<Transit>
    requires ValidConfig(c) && IsRun(c, run)
  {
    if run == [] then []
    else
      RunSnoc(c, run);
      var init, a := run[..|run| - 1], run[|run| - 1];
      var s := StateAfter(c, init).value;
      TransitsBy(c, init, l)
      + if SendsNow(c, s, a, l) then [Transit(s.now, FirstRecord(c, s, a).node, FirstRecord(c, s, a).packet)] else []
  }

  function TransitsOf(sent: seq<Departure>): seq<Transit> {
    seq(|sent|, k requires 0 <= k < |sent| => Transit(sent[k].time, sent[k].node, sent[k].packet))
  }

  function PacketsOf(transits: seq<Transit>): (packets: seq<Pacing.Packet>)
    ensures |packets| == |transits|
  {
    seq(|transits|, k requires 0 <= k < |transits| => Pacing.Packet(transits[k].time, transits[k].packet.size))
  }

  lemma LastIsFirstRecord(c: Config, s: State, a: Action, s1: State, sent1: seq<Departure>)
    requires ValidConfig(c) && Sane(c, s) && Enabled(c, s, a) && OfLinkTask(a) && sent1 != []
    requires Leaves(c, s, a, sent1[|sent1| - 1]) && Describes(s1.log, sent1) && PacketsKept(s.log, s1.log)
    ensures var d := sent1[|sent1| - 1];
      d.time == s.now && d.node == FirstRecord(c, s, a).node && d.packet == FirstRecord(c, s, a).packet
  {
    FirstTicketIs(c, s, a);
    hide ValidConfig, Sane, Enabled, Tickets, FirstRecord;
  }

  lemma NextTransit(c: Config, s: State, a: Action, l: LinkId, sent: seq<Departure>, sent1: seq<Departure>)
    requires ValidConfig(c) && Sane(c, s) && TasksWait(c, s) && Enabled(c, s, a)
    requires if SendsNow(c, s, a, l) then |sent1| == |sent| + 1 && sent1[..|sent|] == sent && Leaves(c, s, a, sent1[|sent|])
             else sent1 == sent
    requires Describes(Perform(c, s, a).log, sent1)
    ensures TransitsOf(sent1) == TransitsOf(sent)
      + if SendsNow(c, s, a, l) then [Transit(s.now, FirstRecord(c, s, a).node, FirstRecord(c, s, a).packet)] else []
  {
    hide ValidConfig, Sane, TasksWait, Enabled, Perform, WillSend, LinkActionOutcome, Goes, Tickets, Describes, Leaves,
      PacketsKept, FirstRecord;
    if SendsNow(c, s, a, l) {
      LinkTaskOutcome(c, s, a);
      OutcomeGoes(c, s, a, Perform(c, s, a));
      GoesKeepsPackets(c, s, Perform(c, s, a), l, Tickets(s.links[l])[0]);
      LastIsFirstRecord(c, s, a, Perform(c, s, a), sent1);
      assert sent1 == sent + [sent1[|sent|]];
    }
  }

  /** One action more, for `RunSendsAreSeen`. */
  lemma NextRunSends(c: Config, order: seq<NodeId>, s: State, a: Action, l: LinkId, offers: seq<Ticket>, done: nat,
                     before: seq<Departure>)
    returns (done1: nat, sent: seq<Departure>)
    requires ValidConfig(c) && ValidOrder(MetaOf(c), order) && Good(c, order, s) && Sane(c, s) && Enabled(c, s, a)
    requires l in s.links && l in c.links && c.links[l].bandwidthBps > 0 && Ordered(c, s, l, offers, done, before)
    requires Seen(c, order, s, l, before) && TimeSorted(Perform(c, s, a).trace)
    ensures l in Perform(c, s, a).links
    ensures Ordered(c, Perform(c, s, a), l, offers + NewTickets(c, s, a, l), done1, sent)
    ensures Seen(c, order, Perform(c, s, a), l, sent)
    ensures TransitsOf(sent) == TransitsOf(before)
      + if SendsNow(c, s, a, l) then [Transit(s.now, FirstRecord(c, s, a).node, FirstRecord(c, s, a).packet)] else []
  {
    hide ValidConfig, ValidOrder, Sane, TasksWait, Enabled, Perform, Ordered, AtRest, NewTickets, Seen, Tracked, Good,
      SendsNow, Leaves, Describes, FirstRecord, TransitsOf;
    GoodIsSane(c, order, s);
    done1, sent := ActionOrdered(c, s, a, l, offers, done, before);
    OrderedDescribes(c, Perform(c, s, a), l, offers + NewTickets(c, s, a, l), done1, sent);
    NextSeen(c, order, s, a, l, before, sent);
    NextTransit(c, s, a, l, before, sent);
  }

  lemma RunSendsSnoc(c: Config, run: seq<Action>, l: LinkId)
    requires ValidConfig(c) && IsRun(c, run) && run != [] && l in c.links
    ensures IsRun(c, run[..|run| - 1])
    ensures var init, a := run[..|run| - 1], run[|run| - 1];
      var s := StateAfter(c, init).value;
      && Sane(c, s) && Enabled(c, s, a) && l in s.links && StateAfter(c, run) == Some(Perform(c, s, a))
      && OffersTo(c, run, l) == OffersTo(c, init, l) + NewTickets(c, s, a, l)
      && TransitsBy(c, run, l) == TransitsBy(c, init, l)
         + if SendsNow(c, s, a, l) then [Transit(s.now, FirstRecord(c, s, a).node, FirstRecord(c, s, a).packet)] else []
  {
    RunSnoc(c, run);
    hide ValidConfig, Sane, Enabled, Perform, StateAfter, NewTickets, SendsNow, FirstRecord;
    LinksStay(c, run[..|run| - 1], l);
  }

  lemma NothingSent(c: Config, order: seq<NodeId>, l: LinkId)
    requires ValidConfig(c) && ValidOrder(MetaOf(c), order) && l in c.links && c.links[l].bandwidthBps > 0
    ensures IsRun(c, []) && l in StateAfter(c, []).value.links
    ensures Ordered(c, StateAfter(c, []).value, l, OffersTo(c, [], l), 0, [])
    ensures Seen(c, order, StateAfter(c, []).value, l, []) && TransitsOf([]) == TransitsBy(c, [], l)
  {
    hide ValidConfig, ValidOrder, Ordered, Seen;
    StartOrdered(c, l);
    NothingSeen(c, order, l);
  }

  /** In every run: the link's sends, in order and allowed by its pacer, are what the verifier counts for it. */
  lemma {:induction false} RunSendsAreSeen(c: Config, order: seq<NodeId>, run: seq<Action>, l: LinkId)
    returns (done: nat, sent: seq<Departure>)
    requires ValidConfig(c) && ValidOrder(MetaOf(c), order) && IsRun(c, run) && l in c.links
    ensures c.links[l].bandwidthBps > 0 && l in StateAfter(c, run).value.links
    ensures Ordered(c, StateAfter(c, run).value, l, OffersTo(c, run, l), done, sent)
    ensures Seen(c, order, StateAfter(c, run).value, l, sent) && TransitsOf(sent) == TransitsBy(c, run, l)
  {
    BandwidthKnown(c, l);
    hide ValidConfig, ValidOrder, Sane, TasksWait, Enabled, Perform, Ordered, AtRest, NewTickets, Seen, Tracked, Good,
      SendsNow, FirstRecord, StateAfter, TransitsOf, TransitsBy, OffersTo;
    if run == [] {
      NothingSent(c, order, l);
      done, sent := 0, [];
    } else {
      RunSendsSnoc(c, run, l);
      var init, a := run[..|run| - 1], run[|run| - 1];
      done, sent := RunSendsAreSeen(c, order, init, l);
      RunsAreGood(c, order, init);
      RunIsSorted(c, order, run);
      done, sent := NextRunSends(c, order, StateAfter(c, init).value, a, l, OffersTo(c, init, l), done, sent);
    }
  }

  lemma RunIsSorted(c: Config, order: seq<NodeId>, run: seq<Action>)
    requires ValidConfig(c) && ValidOrder(MetaOf(c), order) && IsRun(c, run)
    ensures TimeSorted(StateAfter(c, run).value.trace)
  {
    hide ValidConfig, ValidOrder, StateAfter, Good, Sane, TasksWait, Tracked, AtRest;
    RunsAreGood(c, order, run);
    GoodIsSane(c, order, StateAfter(c, run).value);
    TrackedIsSorted(c, order, StateAfter(c, run).value);
  }

  // ----- Sends and steps, one for one -----

  /** Step `i` of the trace is send number `k` over the link. */
  predicate IsSendNumber(trace: seq<Step>, l: LinkId, i: nat, k: nat) {
    i < |trace| && trace[i].kind.PacketInTransit? && trace[i].kind.link == l && k == |TransitsOver(trace[..i], l)|
  }

  lemma {:induction false} EverySendIsAStep(trace: seq<Step>, l: LinkId, k: nat) returns (i: nat)
    requires k < |TransitsOver(trace, l)|
    ensures IsSendNumber(trace, l, i, k)
  {
    var init := trace[..|trace| - 1];
    if k < |TransitsOver(init, l)| {
      i := EverySendIsAStep(init, l, k);
      assert init[..i] == trace[..i];
    } else {
      i := |trace| - 1;
    }
  }

  lemma SendByIsTransit(meta: Meta, order: seq<NodeId>, trace: seq<Step>, l: LinkId)
    requires ValidOrder(meta, order) && TimeSorted(trace) && trace != [] && ReplayTrace(meta, order, trace).Running?
    ensures var init, step := trace[..|trace| - 1], trace[|trace| - 1];
      && ReplayTrace(meta, order, init).Running?
      && |SendBy(ReplayTrace(meta, order, init).st, step.time, step.kind, l)|
         == if step.kind.PacketInTransit? && step.kind.link == l then 1 else 0
  {
    hide ReplayTrace, ValidOrder, AdvanceTo, ApplyStep, WellFormed;
    var init, step := trace[..|trace| - 1], trace[|trace| - 1];
    LastStep(meta, order, trace);
    if step.kind.PacketInTransit? && step.kind.link == l {
      var st := ReplayTrace(meta, order, init).st;
      SentFrom(meta, AdvanceTo(meta, order, st, step.time), step.time, step.kind);
      AdvanceKeepsSends(meta, order, st, step.time, l);
    }
  }

  lemma {:induction false} AsManySends(meta: Meta, order: seq<NodeId>, trace: seq<Step>, l: LinkId)
    requires ValidOrder(meta, order) && TimeSorted(trace) && ReplayTrace(meta, order, trace).Running?
    ensures |SendsOver(meta, order, trace, l)| == |TransitsOver(trace, l)|
  {
    hide ReplayTrace, ValidOrder, SendBy;
    if trace != [] {
      SendByIsTransit(meta, order, trace, l);
      AsManySends(meta, order, trace[..|trace| - 1], l);
    }
  }

  lemma {:induction false} SendsGrow(meta: Meta, order: seq<NodeId>, trace: seq<Step>, i: nat, l: LinkId)
    requires ValidOrder(meta, order) && TimeSorted(trace) && i <= |trace|
    ensures SendsOver(meta, order, trace[..i], l) <= SendsOver(meta, order, trace, l)
    ensures TransitsOver(trace[..i], l) <= TransitsOver(trace, l)
    decreases |trace|
  {
    hide ReplayTrace, ValidOrder, SendBy;
    if i == |trace| {
      assert trace[..i] == trace;
    } else {
      SendsGrow(meta, order, trace[..|trace| - 1], i, l);
      assert trace[..|trace| - 1][..i] == trace[..i];
    }
  }

  /** The sends until a step that is number `k` are the first `k + 1` sends. */
  lemma SendsUntil(meta: Meta, order: seq<NodeId>, trace: seq<Step>, l: LinkId, i: nat, k: nat)
    requires ValidOrder(meta, order) && TimeSorted(trace) && ReplayTrace(meta, order, trace).Running?
    requires IsSendNumber(trace, l, i, k)
    ensures k < |TransitsOver(trace, l)| == |SendsOver(meta, order, trace, l)| && TransitsOver(trace, l)[k] == trace[i]
    ensures SendsOver(meta, order, trace[..i + 1], l) == SendsOver(meta, order, trace, l)[..k + 1]
  {
    hide ReplayTrace, ValidOrder, SendsOver;
    var upTo := trace[..i + 1];
    assert upTo[..|upTo| - 1] == trace[..i] && upTo[i] == trace[i];
    assert TransitsOver(upTo, l) == TransitsOver(trace[..i], l) + [trace[i]];
    hide TransitsOver;
    PrefixReplays(meta, order, trace, i + 1);
    AsManySends(meta, order, trace, l);
    AsManySends(meta, order, upTo, l);
    SendsGrow(meta, order, trace, i + 1, l);
  }

  // ----- Too much bandwidth -----

  /** The link's sends, each with its time and its bits. */
  function BitsSent(transits: seq<Transit>): seq<Send> {
    seq(|transits|, k requires 0 <= k < |transits| => Send(transits[k].time, transits[k].packet.size * 8))
  }

  /**
   * Number `k` of the link's sends is of that packet and from that node, and brings the link's usage
   * to `observed` bits per second, more than the bandwidth.
   */
  predicate OverloadedBy(bandwidthBps: nat, transits: seq<Transit>, k: nat, n: NodeId, id: PacketId, observed: nat) {
    && k < |transits| && transits[k].node == n && transits[k].packet.id == id && bandwidthBps < observed
    && IsUsage(BitsSent(transits[..k + 1]), bandwidthBps, observed)
  }

  lemma UsageOfTransits(transits: seq<Transit>, k: nat)
    requires k < |transits|
    ensures Pacing.SendsOf(PacketsOf(transits))[..k + 1] == BitsSent(transits[..k + 1])
    ensures Pacing.SendsOf(PacketsOf(transits[..k + 1])) == BitsSent(transits[..k + 1])
    ensures BitsSent(transits[..k + 1]) != []
  {
  }

  /** The verifier's view of send number `k` is the simulator's. */
  lemma OverloadSeen(meta: Meta, order: seq<NodeId>, trace: seq<Step>, transits: seq<Transit>, l: LinkId, i: nat, k: nat,
                     n: NodeId, id: PacketId, most: nat, observed: nat)
    requires ValidOrder(meta, order) && TimeSorted(trace) && ReplayTrace(meta, order, trace).Running?
    requires SendsOver(meta, order, trace, l) == Pacing.SendsOf(PacketsOf(transits)) && l in meta.links
    requires |transits| == |TransitsOver(trace, l)| && forall j :: 0 <= j < |transits| ==>
      TransitsOver(trace, l)[j].kind == PacketInTransit(transits[j].packet.id, transits[j].node, l)
    requires IsSendNumber(trace, l, i, k)
    ensures SentBeyond(meta, order, trace, i, n, l, id, most, observed)
       <==> most == meta.links[l].bandwidthBps && OverloadedBy(most, transits, k, n, id, observed)
  {
    hide ReplayTrace, ValidOrder, SendsOver, TransitsOver, BruteForceBps, IsUsage, BitsSent, Pacing.SendsOf, PacketsOf;
    SendsUntil(meta, order, trace, l, i, k);
    UsageOfTransits(transits, k);
    UsageIsBruteForce(BitsSent(transits[..k + 1]), meta.links[l].bandwidthBps);
  }

  lemma OverloadsSeen(meta: Meta, order: seq<NodeId>, trace: seq<Step>, transits: seq<Transit>, l: LinkId,
                      n: NodeId, id: PacketId, most: nat, observed: nat)
    requires ValidOrder(meta, order) && TimeSorted(trace) && ReplayTrace(meta, order, trace).Running?
    requires SendsOver(meta, order, trace, l) == Pacing.SendsOf(PacketsOf(transits)) && l in meta.links
    requires |transits| == |TransitsOver(trace, l)| && forall j :: 0 <= j < |transits| ==>
      TransitsOver(trace, l)[j].kind == PacketInTransit(transits[j].packet.id, transits[j].node, l)
    ensures (exists i :: SentBeyond(meta, order, trace, i, n, l, id, most, observed)) <==>
      most == meta.links[l].bandwidthBps && exists k :: OverloadedBy(most, transits, k, n, id, observed)
  {
    hide ReplayTrace, ValidOrder, SendsOver, TransitsOver, SentBeyond, OverloadedBy, Pacing.SendsOf, PacketsOf;
    if exists i :: SentBeyond(meta, order, trace, i, n, l, id, most, observed) {
      var i: nat :| SentBeyond(meta, order, trace, i, n, l, id, most, observed);
      SendStepIs(meta, order, trace, i, n, l, id, most, observed);
      OverloadSeen(meta, order, trace, transits, l, i, |TransitsOver(trace[..i], l)|, n, id, most, observed);
    }
    if most == meta.links[l].bandwidthBps && exists k :: OverloadedBy(most, transits, k, n, id, observed) {
      var k: nat :| OverloadedBy(most, transits, k, n, id, observed);
      OverloadIsSend(most, transits, k, n, id, observed);
      var i := EverySendIsAStep(trace, l, k);
      OverloadSeen(meta, order, trace, transits, l, i, k, n, id, most, observed);
    }
  }

  lemma SendStepIs(meta: Meta, order: seq<NodeId>, trace: seq<Step>, i: nat, n: NodeId, l: LinkId, id: PacketId,
                   most: nat, observed: nat)
    requires ValidOrder(meta, order) && TimeSorted(trace)
    requires SentBeyond(meta, order, trace, i, n, l, id, most, observed)
    ensures IsSendNumber(trace, l, i, |TransitsOver(trace[..i], l)|)
  {
    hide ReplayTrace, ValidOrder, SendsOver, TransitsOver, BruteForceBps;
  }

  lemma OverloadIsSend(bandwidthBps: nat, transits: seq<Transit>, k: nat, n: NodeId, id: PacketId, observed: nat)
    requires OverloadedBy(bandwidthBps, transits, k, n, id, observed)
    ensures k < |transits|
  {
  }

  /** The run's sends, the trace's steps and the verifier's counts are the same, one by one. */
  lemma SendsAgree(c: Config, order: seq<NodeId>, run: seq<Action>, l: LinkId)
    requires ValidConfig(c) && ValidOrder(MetaOf(c), order) && IsRun(c, run) && l in c.links
    ensures c.links[l].bandwidthBps > 0
    ensures var trace, transits := StateAfter(c, run).value.trace, TransitsBy(c, run, l);
      && TimeSorted(trace) && SendsOver(MetaOf(c), order, trace, l) == Pacing.SendsOf(PacketsOf(transits))
      && |transits| == |TransitsOver(trace, l)|
      && (forall j :: 0 <= j < |transits| ==>
            TransitsOver(trace, l)[j] == Step(transits[j].time, PacketInTransit(transits[j].packet.id, transits[j].node, l)))
      && Pacing.PacerAfter(PacketsOf(transits), c.links[l].bandwidthBps).Some?
  {
    hide ValidConfig, ValidOrder, StateAfter, Ordered, TransitsOver, SendsOver, Pacing.PacerAfter, Describes, InQueueOrder;
    var done, sent := RunSendsAreSeen(c, order, run, l);
    OrderedDescribes(c, StateAfter(c, run).value, l, OffersTo(c, run, l), done, sent);
    assert PacketsOf(TransitsOf(sent)) == PacedOf(sent);
  }

  /** Until send number `k`, the pacer allowed all, and the verifier's usage is within one packet of the bandwidth. */
  predicate PacedWithin(transits: seq<Transit>, k: nat, bandwidthBps: nat) {
    && bandwidthBps > 0 && k < |transits|
    && var sends := PacketsOf(transits[..k + 1]);
       && Pacing.PacerAfter(sends, bandwidthBps).Some?
       && BitsSent(transits[..k + 1]) != []
       && WithinOnePacket(BruteForceBps(BitsSent(transits[..k + 1]), bandwidthBps), bandwidthBps, transits[k].packet.size)
  }

  lemma PacedUntil(transits: seq<Transit>, k: nat, bandwidthBps: nat)
    requires bandwidthBps > 0 && Pacing.PacerAfter(PacketsOf(transits), bandwidthBps).Some? && k < |transits|
    ensures PacedWithin(transits, k, bandwidthBps)
  {
    hide Pacing.PacerAfter, Pacing.VerifierAfter, UsedBps, BruteForceBps, IsUsage, BitsSent;
    UsageOfTransits(transits, k);
    var sends := PacketsOf(transits[..k + 1]);
    assert sends == PacketsOf(transits)[..k + 1];
    Pacing.PacerAllowedPrefix(PacketsOf(transits), bandwidthBps, k + 1);
    Pacing.UsageOfPaced(sends, bandwidthBps);
    Pacing.PacingBoundsBandwidth(sends, bandwidthBps);
  }
}
