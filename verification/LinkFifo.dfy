/** Packets come off a link in the order in which they were sent over it, if it delays them all alike. */
module LinkFifo {
  import opened Types
  import opened Network
  import opened Status
  import opened Simulator
  import opened LinkTasks
  import opened Sanity
  import opened LinkMoves
  import opened NodeReplay
  import opened BandwidthWindow
  import opened Replay
  import opened ReplayTotals
  import opened TraceFlights
  import opened Ledger
  import opened Agreement
  import opened AgreementRuns
  import opened Runs
  import opened RunStates
  import opened LinkOrder
  import InboundQueues
  import Deliveries
  import Pacing
  import Devices

  // ----- What comes off a link, as a trace tells of it -----

  /** The step takes a packet off the link: it arrives, is dropped on arrival, or is lost. */
  predicate Lands(flights: map<PacketId, Flight>, k: StepKind, l: LinkId) {
    (k.PacketInNode? || k.PacketLostInTransit?) && k.packet in flights && flights[k.packet].link == l
  }

  function LandedBy(flights: map<PacketId, Flight>, k: StepKind, l: LinkId): seq<PacketId> {
    if Lands(flights, k, l) then [k.packet] else []
  }

  /** The packets that came off the link, in order. */
  function LandedFrom(trace: seq<Step>, l: LinkId): seq<PacketId> {
    if trace == [] then []
    else
      var init := trace[..|trace| - 1];
      LandedFrom(init, l) + LandedBy(Flights(init), trace[|trace| - 1].kind, l)
  }

  function IdsOf(steps: seq<Step>): seq<PacketId>
    requires forall i :: 0 <= i < |steps| ==> steps[i].kind.PacketInTransit?
  {
    seq(|steps|, i requires 0 <= i < |steps| => steps[i].kind.packet)
  }

  predicate EndsNoFlight(k: StepKind) {
    !k.PacketInNode? && !k.PacketLostInTransit?
  }

  lemma LandedSnoc(trace: seq<Step>, step: Step, l: LinkId)
    ensures LandedFrom(trace + [step], l) == LandedFrom(trace, l) + LandedBy(Flights(trace), step.kind, l)
  {
    assert (trace + [step])[..|trace + [step]| - 1] == trace;
  }

  /** Of several steps, only the first ends a flight, if any does. */
  lemma {:induction false} LandedAppend(trace: seq<Step>, more: seq<Step>, l: LinkId)
    requires forall i :: 0 < i < |more| ==> EndsNoFlight(more[i].kind)
    ensures LandedFrom(trace + more, l)
         == LandedFrom(trace, l) + if more == [] then [] else LandedBy(Flights(trace), more[0].kind, l)
  {
    if more == [] {
      assert trace + more == trace;
    } else {
      var init, last := more[..|more| - 1], more[|more| - 1];
      assert trace + more == trace + init + [last];
      LandedAppend(trace, init, l);
      LandedSnoc(trace + init, last, l);
      assert init == [] ==> trace + init == trace;
    }
  }

  // ----- Flights, as the verifier and the simulator have them -----

  /** The trace's flights are exactly the records of packets on links. */
  ghost predicate FlightsMatch(s: State) {
    && (forall i :: 0 <= i < |s.log| && s.log[i].fate.InTransit? ==>
          && s.log[i].packet.id in Flights(s.trace)
          && Flights(s.trace)[s.log[i].packet.id] == Flight(s.log[i].fate.link, s.log[i].fate.sent))
    && (forall id :: id in Flights(s.trace) ==> exists i :: FlyingAs(s.log, i, id))
  }

  lemma FlightsMatchMirror(log: seq<Record>, inFlight: map<PacketId, InFlight>, s: State)
    requires FlightsMirrored(log, inFlight) && s.log == log && Flights(s.trace) == FlightsOf(inFlight)
    ensures FlightsMatch(s)
  {
  }

  lemma AgreesFlights(c: Config, s: State, r: ReplayState)
    requires ValidConfig(c) && Agrees(c, s, r)
    ensures FlightsMirrored(s.log, r.inFlight) && IdsUsed(s.log, s.used)
  {
    hide ValidConfig, HoldingsMirrored, FlightsMirrored, UsageMirrored, IdsUnique, StatusMirrored, LinksMirrored,
      FlightsKnown, Accounted, RoutersFit, RecordsPlaced, ErrorsExcused, WellFormed, IdsUsed;
  }

  lemma AgreesFlightsTake(c: Config, s: State, r: ReplayState)
    requires ValidConfig(c) && Agrees(c, s, r)
    ensures forall i :: 0 <= i < |s.log| && s.log[i].fate.InTransit? ==> s.log[i].fate.sent <= s.log[i].fate.arrival
  {
    hide ValidConfig, Mirrored, StatusMirrored, LinksMirrored, Accounted, RoutersFit, RecordsPlaced, ErrorsExcused,
      WellFormed, IdsUsed;
    forall i | 0 <= i < |s.log| && s.log[i].fate.InTransit?
      ensures s.log[i].fate.sent <= s.log[i].fate.arrival
    {
      assert FlightKnown(c, s.log[i].fate, s.links, r.links, s.trace, s.now);
    }
  }

  lemma FlightsInRuns(c: Config, run: seq<Action>)
    requires ValidConfig(c) && IsRun(c, run)
    ensures FlightsMatch(StateAfter(c, run).value)
    ensures IdsUsed(StateAfter(c, run).value.log, StateAfter(c, run).value.used)
    ensures var log := StateAfter(c, run).value.log;
      forall i :: 0 <= i < |log| && log[i].fate.InTransit? ==> log[i].fate.sent <= log[i].fate.arrival
  {
    hide ValidConfig, ValidOrder, StateAfter, Sane, TasksWait, AtRest, Good, ReplayTrace, CheckUsage, WellFormed, Agrees,
      FlightsMirrored, FlightsMatch, IdsUsed, FlightsOf;
    var order := SomeOrder(c);
    var s := StateAfter(c, run).value;
    RunsAreGood(c, order, run);
    GoodIsSane(c, order, s);
    AgreesFlights(c, s, Present(c, order, s));
    AgreesFlightsTake(c, s, Present(c, order, s));
    FlightsFollowTrace(MetaOf(c), order, s.trace);
    AdvanceKeepsFlights(MetaOf(c), order, ReplayTrace(MetaOf(c), order, s.trace).st, s.now);
    FlightsMatchMirror(s.log, Present(c, order, s).inFlight, s);
  }

  // ----- The sends that are still in flight -----

  /** The first `landed` sends are off the link, the others are the packets on it. */
  ghost predicate InFlightOrder(c: Config, s: State, l: LinkId, sent: seq<Departure>, landed: nat)
    requires l in c.links
  {
    && landed <= |sent|
    && (forall k :: landed <= k < |sent| ==>
          var d := sent[k];
          && d.ticket.record < |s.log|
          && s.log[d.ticket.record].fate == InTransit(l, d.time, d.time + c.links[l].delay + d.ticket.extraDelay))
    && (forall i :: 0 <= i < |s.log| && s.log[i].fate.InTransit? && s.log[i].fate.link == l ==>
          exists k :: landed <= k < |sent| && sent[k].ticket.record == i)
  }

  function DepartureIds(sent: seq<Departure>): seq<PacketId> {
    seq(|sent|, k requires 0 <= k < |sent| => sent[k].packet.id)
  }

  ghost predicate LandedInOrder(s: State, l: LinkId, sent: seq<Departure>, landed: nat) {
    landed <= |sent| && LandedFrom(s.trace, l) == DepartureIds(sent[..landed])
  }

  /** Records on the link are as they were, and no new ones are on it. */
  ghost predicate SameFlights(s: State, s1: State, l: LinkId) {
    && |s.log| <= |s1.log|
    && (forall i :: 0 <= i < |s.log| && OnLink(s.log[i], l) ==> s1.log[i].fate == s.log[i].fate)
    && (forall i :: 0 <= i < |s1.log| && OnLink(s1.log[i], l) ==> i < |s.log| && OnLink(s.log[i], l))
  }

  predicate OnLink(r: Record, l: LinkId) {
    r.fate.InTransit? && r.fate.link == l
  }

  lemma FlightOrderKept(c: Config, s: State, s1: State, l: LinkId, sent: seq<Departure>, landed: nat)
    requires l in c.links && InFlightOrder(c, s, l, sent, landed) && SameFlights(s, s1, l)
    ensures InFlightOrder(c, s1, l, sent, landed)
  {
    forall k | landed <= k < |sent|
      ensures sent[k].ticket.record < |s1.log|
        && s1.log[sent[k].ticket.record].fate == s.log[sent[k].ticket.record].fate
    {
      assert OnLink(s.log[sent[k].ticket.record], l);
    }
    forall i | 0 <= i < |s1.log| && s1.log[i].fate.InTransit? && s1.log[i].fate.link == l
      ensures exists k :: landed <= k < |sent| && sent[k].ticket.record == i
    {
      assert OnLink(s1.log[i], l);
    }
  }

  /** One more send. */
  lemma FlightOrderGoes(c: Config, s: State, s1: State, l: LinkId, t: Ticket, sent: seq<Departure>, d: Departure,
                        landed: nat)
    requires l in c.links && c.links[l].bandwidthBps > 0 && l in s.links && t.record < |s.log|
    requires InFlightOrder(c, s, l, sent, landed) && Goes(c, s, s1, l, t) && d.ticket == t && d.time == s.now
    ensures InFlightOrder(c, s1, l, sent + [d], landed)
  {
    hide Pacing.TrackSend, Pacing.CanSend;
    var sent1 := sent + [d];
    assert sent1[|sent|] == d;
    forall i | 0 <= i < |s1.log| && s1.log[i].fate.InTransit? && s1.log[i].fate.link == l
      ensures exists k :: landed <= k < |sent1| && sent1[k].ticket.record == i
    {
      if i != t.record {
        var k :| landed <= k < |sent| && sent[k].ticket.record == i;
        assert sent1[k] == sent[k];
      }
    }
  }

  /** The sends are one after the other, and take equally long. */
  predicate AlikeAndSpaced(sent: seq<Departure>, extra: Time) {
    && (forall k :: 0 <= k < |sent| ==> sent[k].ticket.extraDelay == extra)
    && (forall j, k :: 0 <= j < k < |sent| ==> sent[j].time < sent[k].time)
  }

  lemma LaterComesOffLater(c: Config, s: State, l: LinkId, sent: seq<Departure>, landed: nat, extra: Time)
    requires l in c.links && InFlightOrder(c, s, l, sent, landed) && AlikeAndSpaced(sent, extra)
    ensures forall k :: landed < k < |sent| ==>
      s.log[sent[landed].ticket.record].fate.arrival < s.log[sent[k].ticket.record].fate.arrival
  {
  }

  /** What comes off the link first is the oldest of the sends on it. */
  lemma FirstOffIsOldest(c: Config, s: State, l: LinkId, i: nat, sent: seq<Departure>, landed: nat, extra: Time)
    requires l in c.links && InFlightOrder(c, s, l, sent, landed) && AlikeAndSpaced(sent, extra) && FirstOff(s, l, i)
    ensures landed < |sent| && sent[landed].ticket.record == i
  {
    LaterComesOffLater(c, s, l, sent, landed, extra);
    var k :| landed <= k < |sent| && sent[k].ticket.record == i;
    var oldest := sent[landed].ticket.record;
    assert s.log[i].fate.arrival <= s.log[oldest].fate.arrival;
  }

  lemma FlightOrderLands(c: Config, s: State, s1: State, l: LinkId, sent: seq<Departure>, landed: nat, extra: Time)
    requires l in c.links && l in s.links && InFlightOrder(c, s, l, sent, landed) && AlikeAndSpaced(sent, extra)
    requires landed < |sent| && OnLink(s.log[sent[landed].ticket.record], l)
    requires OnlyLands(s, s1, l, sent[landed].ticket.record)
    ensures InFlightOrder(c, s1, l, sent, landed + 1)
  {
    var i := sent[landed].ticket.record;
    forall k | landed < k < |sent|
      ensures sent[k].ticket.record != i
    {
      assert sent[landed].time < sent[k].time;
      assert s.log[i].fate.sent == sent[landed].time;
    }
    forall j | 0 <= j < |s1.log| && s1.log[j].fate.InTransit? && s1.log[j].fate.link == l
      ensures exists k :: landed + 1 <= k < |sent| && sent[k].ticket.record == j
    {
      var k :| landed <= k < |sent| && sent[k].ticket.record == j;
    }
  }
}
