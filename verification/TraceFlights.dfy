/** The packets on links, as a trace tells of them and as the verifier keeps them. */
module TraceFlights {
  import opened Types
  import opened NodeReplay
  import opened BandwidthWindow
  import opened Replay
  import opened ReplayTotals

  /** A packet in flight: the link it is on, and when it went there. */
  datatype Flight = Flight(link: LinkId, sent: Time)

  /** The packets in flight after one more step. */
  function Fly(flights: map<PacketId, Flight>, step: Step): map<PacketId, Flight> {
    var k := step.kind;
    if k.PacketInTransit? then flights[k.packet := Flight(k.link, step.time)]
    else if k.PacketInNode? || k.PacketLostInTransit? then flights - {k.packet}
    else flights
  }

  function Flights(trace: seq<Step>): map<PacketId, Flight> {
    if trace == [] then map[] else Fly(Flights(trace[..|trace| - 1]), trace[|trace| - 1])
  }

  /** A flight began with the send of the packet, over that link and at that time. */
  lemma {:induction false} FlightsAreSends(trace: seq<Step>, id: PacketId) returns (k: nat)
    requires id in Flights(trace)
    ensures k < |trace| && trace[k].time == Flights(trace)[id].sent
    ensures trace[k].kind.PacketInTransit? && trace[k].kind.packet == id && trace[k].kind.link == Flights(trace)[id].link
  {
    var last := trace[|trace| - 1];
    if last.kind.PacketInTransit? && last.kind.packet == id {
      k := |trace| - 1;
    } else {
      k := FlightsAreSends(trace[..|trace| - 1], id);
    }
  }

  function FlightsOf(inFlight: map<PacketId, InFlight>): map<PacketId, Flight> {
    map id | id in inFlight :: Flight(inFlight[id].link, inFlight[id].sentAt)
  }

  lemma StepFlies(meta: Meta, st: ReplayState, t: Time, k: StepKind)
    requires WellFormed(meta, st) && st.lastStepTime == t && ApplyStep(meta, st, t, k).Running?
    ensures FlightsOf(ApplyStep(meta, st, t, k).st.inFlight) == Fly(FlightsOf(st.inFlight), Step(t, k))
  {
    hide SumSizes, SumBits, Tallied, PacketSent, UsedBps, ArrivalErrors, Created, Received, Sent, NodeStep;
    if k.PacketInTransit? {
      SendFlies(meta, st, t, k);
    } else {
      hide StepInTransit;
    }
  }

  lemma SendFlies(meta: Meta, st: ReplayState, t: Time, k: StepKind)
    requires WellFormed(meta, st) && st.lastStepTime == t && k.PacketInTransit? && StepInTransit(meta, st, t, k).Running?
    ensures FlightsOf(StepInTransit(meta, st, t, k).st.inFlight) == Fly(FlightsOf(st.inFlight), Step(t, k))
  {
    hide SumSizes, SumBits, Tallied, PacketSent, UsedBps, Sent;
  }

  lemma AdvanceKeepsFlights(meta: Meta, order: seq<NodeId>, st: ReplayState, t: Time)
    requires ValidOrder(meta, order) && WellFormed(meta, st) && st.lastStepTime <= t
    ensures AdvanceTo(meta, order, st, t).inFlight == st.inFlight
  {
    hide UpdateMaxBufferUsage;
  }

  lemma {:induction false} FlightsFollowTrace(meta: Meta, order: seq<NodeId>, trace: seq<Step>)
    requires ValidOrder(meta, order) && TimeSorted(trace) && ReplayTrace(meta, order, trace).Running?
    ensures FlightsOf(ReplayTrace(meta, order, trace).st.inFlight) == Flights(trace)
  {
    hide WellFormed, CheckUsage, ApplyStep, ValidOrder, Fly;
    if trace == [] {
      assert FlightsOf(map[]) == map[];
    } else {
      LastStep(meta, order, trace);
      hide ReplayTrace;
      var init, step := trace[..|trace| - 1], trace[|trace| - 1];
      FlightsFollowTrace(meta, order, init);
      var st := ReplayTrace(meta, order, init).st;
      AdvanceKeepsFlights(meta, order, st, step.time);
      StepFlies(meta, AdvanceTo(meta, order, st, step.time), step.time, step.kind);
    }
  }
}
