/** One run that draws every error that runs can draw at all. */
module Witness {
  import opened Types
  import opened Route
  import opened Network
  import opened Status
  import opened Simulator
  import opened StableSort
  import opened BandwidthWindow
  import opened NodeReplay
  import opened Replay
  import opened BufferCheck
  import opened Agreement
  import opened RunStates
  import opened VerifiedRuns
  import Pacing

  // ----- Two hosts, and a slow link from the first to the second -----

  const A: IpAddr := V4(1)
  const B: IpAddr := V4(2)
  const L: LinkId := 7

  const TINY := Config(
    map[0 := NodeSpec(Host, 100, [Interface([A], [])]), 1 := NodeSpec(Host, 10, [Interface([B], [])])],
    map[L := LinkSpec(A, B, 0, 8, 0)],
    map[A := 0, B := 1],
    map[A := [], B := []],
    map[(A, B) := L])

  lemma TinyAddresses()
    ensures Addresses(TINY.nodes[0]) == [A] && Addresses(TINY.nodes[1]) == [B]
  {
    var ia, ib := Interface([A], []), Interface([B], []);
    assert InterfaceAddresses([ia][1..]) == [] && InterfaceAddresses([ib][1..]) == [];
    assert [A] + [] == [A] && [B] + [] == [B];
  }

  lemma TinyIsValid()
    ensures ValidConfig(TINY)
    ensures SourceNode(TINY, L) == 0 && TargetNode(TINY, L) == 1
    ensures Candidates(TINY, 0, B) == [L]
  {
    TinyAddresses();
    hide Addresses;
    assert ValidConfig(TINY) by {
      assert 0 in TINY.nodes && TINY.links[L].source in Addresses(TINY.nodes[0]);
    }
    assert Owns(TINY, 0, A);
    assert DirectLinks(TINY, [A][1..], B) == [];
    assert DirectLinks(TINY, [A], B) == [L];
    assert AllRoutedLinks(TINY, [A][1..], B) == [];
    assert AllRoutedLinks(TINY, [A], B) == [];
  }

  // ----- What happens, all at the first instant -----

  const SOCKET := SocketAddr(B, HOST_PORT)
  const P := Packet(0, 0, 28, SOCKET)
  const Q := Packet(1, 1, 28, SOCKET)
  const OFFER := Offer(0, [L], 0)
  const DOWN := StatusCell(Down(0), 1)
  const SENT_UNTIL: Option<Time> := Some(28 * NS_PER_SECOND)

  const K0 := PacketInNode(0, 0, 28, 0, false)
  const K1 := NetworkEvent(None, Some(NodeEvent(0, Some(GoDown), false)))
  const K2 := PacketInTransit(0, 0, L)
  const K3 := NetworkEvent(Some(LinkEvent(L, Some(GoDown))), None)
  const K4 := PacketInNode(0, 0, 28, 1, false)
  const K5 := PacketInNode(1, 1, 28, 0, true)

  const T1 := [Step(0, K0)]
  const T2 := [Step(0, K0), Step(0, K1)]
  const T3 := [Step(0, K0), Step(0, K1), Step(0, K2)]
  const T4 := [Step(0, K0), Step(0, K1), Step(0, K2), Step(0, K3)]
  const T5 := [Step(0, K0), Step(0, K1), Step(0, K2), Step(0, K3), Step(0, K4)]
  const T6 := [Step(0, K0), Step(0, K1), Step(0, K2), Step(0, K3), Step(0, K4), Step(0, K5)]

  function NodesAre(first: SimNode): map<NodeId, SimNode> {
    map[0 := first, 1 := SimNode(INITIALLY_UP, None, 10, [])]
  }

  const S0 := State(0, NodesAre(SimNode(INITIALLY_UP, None, 100, [])),
                    map[L := SimLink(INITIALLY_UP, None, None, [], Idle)], [], {}, 0, [], false)
  const S1 := State(0, NodesAre(SimNode(INITIALLY_UP, None, 72, [0])),
                    map[L := SimLink(INITIALLY_UP, None, None, [], Idle)],
                    [Record(0, P, 0, Buffered)], {0}, 1, T1, false)
  const S2 := S1.(nodes := NodesAre(SimNode(INITIALLY_UP, None, 72, [])),
                  links := map[L := SimLink(INITIALLY_UP, None, None, [OFFER], Idle)])
  const S3 := S2.(nodes := NodesAre(SimNode(DOWN, None, 72, [])), trace := T2)
  const S4 := S3.(nodes := NodesAre(SimNode(DOWN, None, 100, [])), trace := T3,
                  links := map[L := SimLink(INITIALLY_UP, None, SENT_UNTIL, [], Idle)],
                  log := [Record(0, P, 0, InTransit(L, 0, 0))])
  const S5 := S4.(links := map[L := SimLink(DOWN, Some(0), SENT_UNTIL, [], Idle)], trace := T4)
  const S6 := S5.(log := [Record(0, P, 0, Arrived), Record(1, P, 0, AtApp)], trace := T5)
  const S7 := S6.(log := [Record(0, P, 0, Arrived), Record(1, P, 0, AtApp), Record(0, Q, 0, Phantom)],
                  used := {0, 1}, nextNumber := 2, trace := T6)

  const A0 := Create(0, 28, 0, SOCKET, Keep)
  const A1 := RunNodeTask(0, [false])
  const A2 := NodeChange(NodeEvent(0, Some(GoDown), false))
  const A3 := StartLinkTask(L)
  const A4 := LinkChange(LinkEvent(L, Some(GoDown)))
  const A5 := RunForwarder(L, 0, Keep)
  const A6 := Create(0, 28, 1, SOCKET, Keep)

  ghost predicate Leads(s: State, a: Action, s1: State) {
    ValidConfig(TINY) && Sane(TINY, s) && Enabled(TINY, s, a) && Perform(TINY, s, a) == s1
  }

  lemma Sane0()
    ensures Start(TINY) == S0 && Sane(TINY, S0)
  {
    TinyIsValid();
    TinyAddresses();
    hide ValidConfig, Addresses, Candidates;
    assert Start(TINY).nodes == S0.nodes;
    assert Start(TINY).links == S0.links;
  }

  lemma Step0()
    ensures Leads(S0, A0, S1)
  {
    TinyIsValid();
    TinyAddresses();
    Sane0();
    hide ValidConfig, Addresses, Candidates, Sane;
    var s0 := S0.(used := S0.used + {P.id} + RollIds(Keep), nextNumber := 1);
    assert s0.used == {0};
    assert CreatePacket(TINY, S0, 0, P, Keep) == Forward(TINY, s0, 0, P, Keep, None);
    assert Arrive(s0, 0, P, None).trace == T1;
    assert Arrive(s0, 0, P, None).log == [Record(0, P, 0, Arriving)];
    var s1 := Arrive(s0, 0, P, None);
    assert !IsEndpoint(TINY, 0, SOCKET);
    assert Forward(TINY, s0, 0, P, Keep, None) == EnqueueOutbound(s1, 0);
    assert EnqueueOutbound(s1, 0) == Reserve(s1, 0);
    assert Reserve(s1, 0).nodes[0] == S1.nodes[0];
    assert Reserve(s1, 0).nodes == S1.nodes;
    assert Reserve(s1, 0).log == S1.log;
  }

  lemma Sane1()
    ensures Sane(TINY, S1)
  {
    TinyAddresses();
    hide Addresses;
  }

  lemma Sane2()
    ensures Sane(TINY, S2)
  {
    TinyAddresses();
    hide Addresses;
  }

  lemma Sane3()
    ensures Sane(TINY, S3)
  {
    TinyAddresses();
    hide Addresses;
  }

  lemma Sane4()
    ensures Sane(TINY, S4)
  {
    TinyAddresses();
    hide Addresses;
  }

  lemma Sane5()
    ensures Sane(TINY, S5)
  {
    TinyAddresses();
    hide Addresses;
  }

  lemma Sane6()
    ensures Sane(TINY, S6)
  {
    TinyAddresses();
    hide Addresses;
  }

  lemma Step1()
    ensures Leads(S1, A1, S2)
  {
    TinyIsValid();
    TinyAddresses();
    hide ValidConfig, Addresses, Candidates;
    Sane1();
    hide Sane;
    CandidatesStartHere(TINY, 0, B);
    var s := TakeOutbound(S1, 0);
    assert [0][1..] == [];
    assert s.nodes[0] == S2.nodes[0];
    assert s.nodes == S2.nodes;
    var s1 := OfferTo(s, L, OFFER);
    assert s1.links[L] == S2.links[L];
    assert s1.links == S2.links;
    assert [L][1..] == [] && [false][1..] == [];
    assert OfferAll(TINY, s, 0, [L], [L], [false]) == OfferAll(TINY, s1, 0, [L], [], []);
    assert OfferAll(TINY, s1, 0, [L], [], []) == s1;
  }

  lemma Step2()
    ensures Leads(S2, A2, S3)
  {
    TinyIsValid();
    TinyAddresses();
    hide ValidConfig, Addresses, Candidates;
    Sane2();
    hide Sane;
    assert ProcessNodeEvent(S2, NodeEvent(0, Some(GoDown), false)).nodes == S3.nodes;
  }

  const S3_TAKEN := S3.(links := map[L := SimLink(INITIALLY_UP, None, None, [], Idle)])

  lemma SendTakes28Seconds()
    ensures Pacing.TrackSend(0, 28, 8) == SENT_UNTIL
  {
  }

  lemma SendsNodes()
    ensures Transmit(TINY, S3_TAKEN, L, OFFER).nodes == S4.nodes
  {
    hide Pacing.TrackSend;
    var s1 := Transmit(TINY, S3_TAKEN, L, OFFER);
    assert s1.nodes[0] == S4.nodes[0];
  }

  lemma Sends()
    ensures Transmit(TINY, S3_TAKEN, L, OFFER) == S4
  {
    hide Pacing.TrackSend;
    SendsNodes();
    SendTakes28Seconds();
    var s1 := Transmit(TINY, S3_TAKEN, L, OFFER);
    assert s1.links == S4.links;
    assert s1.log == S4.log;
    assert s1.trace == S4.trace;
  }

  lemma Takes()
    ensures TakeOffer(TINY, S3, L) == Transmit(TINY, S3_TAKEN, L, OFFER)
  {
    hide Transmit;
    assert [OFFER][1..] == [];
    assert S3.links[L := S3.links[L].(queue := [])] == S3_TAKEN.links;
    assert TakeOffer(TINY, S3, L) == Prefer(TINY, S3_TAKEN, L, OFFER);
    assert Prefer(TINY, S3_TAKEN, L, OFFER) == Claim(TINY, S3_TAKEN, L, OFFER);
  }

  lemma Step3()
    ensures Leads(S3, A3, S4)
  {
    TinyIsValid();
    TinyAddresses();
    Sane3();
    Sends();
    Takes();
    hide ValidConfig, Addresses, Candidates, Sane, TakeOffer, Transmit;
  }

  lemma Step4()
    ensures Leads(S4, A4, S5)
  {
    TinyIsValid();
    TinyAddresses();
    hide ValidConfig, Addresses, Candidates;
    Sane4();
    hide Sane;
    assert ProcessLinkEvent(S4, LinkEvent(L, Some(GoDown))).links == S5.links;
  }

  lemma Step5()
    ensures Leads(S5, A5, S6)
  {
    TinyIsValid();
    TinyAddresses();
    hide ValidConfig, Addresses, Candidates;
    Sane5();
    hide Sane;
    var s := S5.(used := S5.used + RollIds(Keep));
    assert s == S5;
    assert Deliver(TINY, s, L, 0, Keep) == Forward(TINY, s, 1, P, Keep, Some(0));
    var s1 := Arrive(s, 1, P, Some(0));
    assert s1.log == [Record(0, P, 0, Arrived), Record(1, P, 0, Arriving)];
    assert IsEndpoint(TINY, 1, SOCKET);
    assert Place(TINY, s1, 1, Keep).log == S6.log;
  }

  lemma Step6()
    ensures Leads(S6, A6, S7)
  {
    TinyIsValid();
    TinyAddresses();
    hide ValidConfig, Addresses, Candidates;
    Sane6();
    hide Sane;
    var s0 := S6.(used := S6.used + {Q.id} + RollIds(Keep), nextNumber := 2);
    assert s0.used == {0, 1};
    assert CreatePacket(TINY, S6, 0, Q, Keep) == Forward(TINY, s0, 0, Q, Keep, None);
    assert ArriveWhileDown(s0, 0, Q, None).log == S7.log;
  }

  const RUN := [A0, A1, A2, A3, A4, A5, A6]

  lemma Extends(run: seq<Action>, s: State, a: Action, s1: State)
    requires ValidConfig(TINY) && StateAfter(TINY, run) == Some(s) && Leads(s, a, s1)
    ensures ValidConfig(TINY) && StateAfter(TINY, run + [a]) == Some(s1)
  {
    hide ValidConfig, Sane, Enabled, Perform;
    assert (run + [a])[..|run + [a]| - 1] == run;
  }

  lemma RunStarts()
    ensures ValidConfig(TINY) && StateAfter(TINY, [A0, A1, A2]) == Some(S3)
  {
    hide ValidConfig, Leads, StateAfter, Candidates;
    TinyIsValid();
    Step0(); Step1(); Step2();
    StartsRun();
    Extends([], S0, A0, S1);
    assert [] + [A0] == [A0];
    Extends([A0], S1, A1, S2);
    assert [A0] + [A1] == [A0, A1];
    Extends([A0, A1], S2, A2, S3);
    assert [A0, A1] + [A2] == [A0, A1, A2];
  }

  lemma RunGoesOn()
    ensures ValidConfig(TINY) && StateAfter(TINY, [A0, A1, A2, A3, A4]) == Some(S5)
  {
    hide ValidConfig, Leads, StateAfter;
    RunStarts();
    Step3(); Step4();
    Extends([A0, A1, A2], S3, A3, S4);
    assert [A0, A1, A2] + [A3] == [A0, A1, A2, A3];
    Extends([A0, A1, A2, A3], S4, A4, S5);
    assert [A0, A1, A2, A3] + [A4] == [A0, A1, A2, A3, A4];
  }

  lemma RunLeads()
    ensures ValidConfig(TINY) && StateAfter(TINY, RUN) == Some(S7)
  {
    hide ValidConfig, Leads, StateAfter;
    RunGoesOn();
    Step5(); Step6();
    Extends([A0, A1, A2, A3, A4], S5, A5, S6);
    assert [A0, A1, A2, A3, A4] + [A5] == [A0, A1, A2, A3, A4, A5];
    Extends([A0, A1, A2, A3, A4, A5], S6, A6, S7);
    assert [A0, A1, A2, A3, A4, A5] + [A6] == RUN;
  }

  lemma StartsRun()
    requires ValidConfig(TINY)
    ensures StateAfter(TINY, []) == Some(S0)
  {
    Sane0();
  }

  // ----- What the verifier makes of it -----

  const META := Meta({0, 1}, map[0 := 100, 1 := 10], map[L := LinkMeta(0, 1, 0, 8)])

  const HELD := HeldPacket(0, 28, 0)
  const V1 := FRESH_NODE.(packets := map[0 := HELD], bufferUsage := 28)
  const V2 := V1.(up := false, lastDown := Some(0))
  const V3 := V2.(packets := map[], bufferUsage := 0, sent := PacketStats(1, 28))
  const V6 := V3.(packets := map[1 := HELD], bufferUsage := 28)
  const W5 := FRESH_NODE.(packets := map[0 := HELD], bufferUsage := 28, received := PacketStats(1, 28))
  const U3 := LinkView(true, None, 224, [Send(0, 224)], 22)
  const U4 := U3.(up := false, lastDown := Some(0))

  const E1 := NodeDownPacketSend(0, 0)
  const E2 := LinkBandwidthExceeded(0, L, 0, 8, 22)
  const E3 := OfflinePacketReceive(1, L, 0, 0)
  const E4 := NodeDownPacketReceive(0, 1)
  const E5 := NodeExceedsBufferSize(1, 10, 28)

  const R0 := ReplayState(map[0 := FRESH_NODE, 1 := FRESH_NODE], map[L := FRESH_LINK], map[], map[], [], 0, None)
  const R1 := R0.(nodes := map[0 := V1, 1 := FRESH_NODE])
  const R2 := R1.(nodes := map[0 := V2, 1 := FRESH_NODE])
  const R3 := R2.(nodes := map[0 := V3, 1 := FRESH_NODE], links := map[L := U3],
                  inFlight := map[0 := InFlight(28, 0, 0, L)], errors := [E1, E2])
  const R4 := R3.(links := map[L := U4])
  const R5 := R4.(nodes := map[0 := V3, 1 := W5], inFlight := map[], errors := [E1, E2, E3])
  const R6 := R5.(nodes := map[0 := V6, 1 := W5], errors := [E1, E2, E3, E4])

  lemma MetaIs()
    ensures ValidConfig(TINY) && MetaOf(TINY) == META
  {
    TinyIsValid();
    hide ValidConfig, SourceNode, TargetNode, Candidates, Addresses;
    assert MetaOf(TINY).hosts == META.hosts;
    assert MetaOf(TINY).bufferSizes == META.bufferSizes;
    assert MetaOf(TINY).links[L] == META.links[L];
    assert MetaOf(TINY).links == META.links;
  }

  lemma Replay0()
    requires WellFormed(META, R0)
    ensures ApplyStep(META, R0, 0, K0) == Running(R1)
  {
    hide WellFormed, SumSizes, SumBits;
    assert R0.nodes[0 := V1] == R1.nodes;
    assert map[][0 := HELD] == map[0 := HELD];
  }

  lemma Replay1()
    requires WellFormed(META, R1)
    ensures ApplyStep(META, R1, 0, K1) == Running(R2)
  {
    hide WellFormed, SumSizes, SumBits;
    assert R1.nodes[0 := V2] == R2.nodes;
  }

  lemma Replay3()
    requires WellFormed(META, R3)
    ensures ApplyStep(META, R3, 0, K3) == Running(R4)
  {
    hide WellFormed, SumSizes, SumBits;
    assert R3.links[L := U4] == R4.links;
  }

  lemma Replay4()
    requires WellFormed(META, R4)
    ensures ApplyStep(META, R4, 0, K4) == Running(R5)
  {
    hide WellFormed, SumSizes, SumBits;
    assert R4.nodes[1 := W5] == R5.nodes;
    assert R4.inFlight - {0} == map[];
    assert map[][0 := HELD] == map[0 := HELD];
    assert ArrivalErrors(META, R4, R4.inFlight[0], 1, 0) == [E3];
  }

  lemma Replay5()
    requires WellFormed(META, R5)
    ensures ApplyStep(META, R5, 0, K5) == Running(R6)
  {
    hide WellFormed, SumSizes, SumBits;
    assert R5.nodes[0 := V6] == R6.nodes;
    assert map[][1 := HELD] == map[1 := HELD];
  }

  lemma WindowIs()
    ensures PacketSent(FRESH_LINK, 0, 28, 8) == U3 && UsedBps(U3, 8) == 22
  {
    assert Expire([], WindowNs(8), 0) == [];
    assert [] + [Send(0, 224)] == [Send(0, 224)];
    assert SumBits([Send(0, 224)]) == 224 + SumBits([Send(0, 224)][1..]);
  }

  lemma Departs()
    requires Tallied(V2)
    ensures Sent(V2, 0, 0) == NodeOk(V3, [E1])
  {
    hide SumSizes, Tallied;
    assert V2.packets - {0} == map[];
    assert [E1] + [] == [E1];
  }

  lemma Replay2()
    requires WellFormed(META, R2)
    ensures ApplyStep(META, R2, 0, K2) == Running(R3)
  {
    assert Tallied(R2.nodes[0]);
    Departs();
    WindowIs();
    hide WellFormed, SumSizes, SumBits, Tallied, Sent, PacketSent, UsedBps;
    var st := R2.(nodes := R3.nodes, errors := [E1]);
    assert R2.nodes[0 := V3] == R3.nodes;
    assert WithNode(R2, 0, Sent(R2.nodes[0], 0, 0)) == Running(st);
    assert R2.links[L := U3] == R3.links;
    assert R2.inFlight[0 := InFlight(28, 0, 0, L)] == R3.inFlight;
    assert [E1] + [] + [] + [E2] == [E1, E2];
  }

  lemma Extended(order: seq<NodeId>, trace: seq<Step>, st: ReplayState, k: StepKind, st1: ReplayState)
    requires ValidOrder(META, order) && TimeSorted(trace) && LastTime(trace) == 0 && st.lastStepTime == 0
    requires ReplayTrace(META, order, trace) == Running(st)
    requires WellFormed(META, st) ==> ApplyStep(META, st, 0, k) == Running(st1)
    ensures TimeSorted(trace + [Step(0, k)]) && LastTime(trace + [Step(0, k)]) == 0
    ensures ReplayTrace(META, order, trace + [Step(0, k)]) == Running(st1)
  {
    hide WellFormed, ValidOrder, ApplyStep, CheckUsage;
    ReplaySnoc(META, order, trace, Step(0, k));
  }

  lemma ReplaysFirst(order: seq<NodeId>)
    requires ValidOrder(META, order)
    ensures TimeSorted(T1) && LastTime(T1) == 0 && ReplayTrace(META, order, T1) == Running(R1)
  {
    StartReplays(order);
    hide WellFormed, ValidOrder, ApplyStep, ReplayTrace, InitialState;
    if WellFormed(META, R0) { Replay0(); }
    Extended(order, [], R0, K0, R1);
    assert [] + [Step(0, K0)] == T1;
  }

  lemma ReplaysHalf(order: seq<NodeId>)
    requires ValidOrder(META, order)
    ensures TimeSorted(T3) && LastTime(T3) == 0 && ReplayTrace(META, order, T3) == Running(R3)
  {
    hide WellFormed, ValidOrder, ApplyStep, ReplayTrace;
    ReplaysFirst(order);
    if WellFormed(META, R1) { Replay1(); }
    if WellFormed(META, R2) { Replay2(); }
    Extended(order, T1, R1, K1, R2);
    assert T1 + [Step(0, K1)] == T2;
    Extended(order, T2, R2, K2, R3);
    assert T2 + [Step(0, K2)] == T3;
  }

  lemma StartReplays(order: seq<NodeId>)
    requires ValidOrder(META, order)
    ensures ReplayTrace(META, order, []) == Running(R0)
  {
    assert InitialState(META).nodes == R0.nodes;
    assert InitialState(META).links == R0.links;
  }

  lemma ReplaysAll(order: seq<NodeId>)
    requires ValidOrder(META, order)
    ensures TimeSorted(T6) && ReplayTrace(META, order, T6) == Running(R6)
  {
    hide WellFormed, ValidOrder, ApplyStep, ReplayTrace;
    ReplaysHalf(order);
    if WellFormed(META, R3) { Replay3(); }
    if WellFormed(META, R4) { Replay4(); }
    if WellFormed(META, R5) { Replay5(); }
    Extended(order, T3, R3, K3, R4);
    assert T3 + [Step(0, K3)] == T4;
    Extended(order, T4, R4, K4, R5);
    assert T4 + [Step(0, K4)] == T5;
    Extended(order, T5, R5, K5, R6);
    assert T5 + [Step(0, K5)] == T6;
  }

  lemma OnlySecondExceeds(n: NodeId, e: NonFatalError)
    requires Blames(META, R6.nodes, n, e)
    ensures e == E5
  {
  }

  lemma SecondExceeds()
    ensures !Fits(META, R6.nodes, 1)
  {
  }

  lemma FinalCheck(order: seq<NodeId>)
    requires ValidOrder(META, order)
    ensures CheckUsage(META, order, R6).errors == [E1, E2, E3, E4, E5]
  {
    OrderCovers(META, order);
    SecondExceeds();
    hide ValidOrder, UpdateMaxBufferUsage, Fits, Blames;
    CheckPasses(META, order, R6.nodes);
    CheckBlames(META, order, R6.nodes);
    assert 1 in order && !Fits(META, R6.nodes, 1);
    var e := UpdateMaxBufferUsage(META, order, R6.nodes).error.value;
    var n :| n in order && Blames(META, R6.nodes, n, e);
    OnlySecondExceeds(n, e);
    assert [E1, E2, E3, E4] + [E5] == [E1, E2, E3, E4, E5];
  }

  /**
   * The errors that runs can draw, they do draw: in this run of seven steps a node sends while it
   * is down, a first packet exceeds the bandwidth, a packet arrives over a link that had a Down
   * update at the instant of the send, a host creates a packet while it is down, and a host holds
   * more for its application than its buffer has room for.
   */
  lemma EveryExcusedErrorIsDrawn(order: seq<NodeId>)
    requires ValidConfig(TINY) && ValidOrder(MetaOf(TINY), order)
    ensures IsRun(TINY, RUN) && TimeSorted(StateAfter(TINY, RUN).value.trace)
    ensures Verdict(MetaOf(TINY), order, StateAfter(TINY, RUN).value.trace).Running?
    ensures Verdict(MetaOf(TINY), order, StateAfter(TINY, RUN).value.trace).st.errors == [E1, E2, E3, E4, E5]
  {
    MetaIs();
    hide ValidConfig, ValidOrder, StateAfter, ReplayTrace, CheckUsage, MetaOf;
    RunLeads();
    ReplaysAll(order);
    VerdictChecks(META, order, T6);
    FinalCheck(order);
  }
}
