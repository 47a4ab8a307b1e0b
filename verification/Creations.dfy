/** How the packets of a run are numbered, as its trace alone tells. */
module Creations {
  import opened Types
  import opened Network
  import opened Status
  import opened Simulator
  import opened Replay
  import opened Ledger
  import opened Agreement
  import opened AgreementRuns
  import opened TraceFlights
  import opened LinkTasks
  import opened LinkMoves
  import opened LinkDecisions
  import opened Arrivals
  import opened LinkFifo
  import opened Losses
  import opened Wipes
  import opened Runs
  import opened RunStates
  import Devices

  /** The step lets a packet begin its way: it is in a node without having come off a link. */
  predicate IsCreation(flying: set<PacketId>, k: StepKind) {
    k.PacketInNode? && k.packet !in flying
  }

  /** How many packets began their way. */
  function Created(trace: seq<Step>): nat {
    if trace == [] then 0
    else
      var before := trace[..|trace| - 1];
      Created(before) + if IsCreation(Flights(before).Keys, trace[|trace| - 1].kind) then 1 else 0
  }

  predicate AddsNoPackets(kinds: seq<StepKind>) {
    forall i :: 0 <= i < |kinds| ==> !kinds[i].PacketInNode?
  }

  lemma {:induction false} NoneCreated(trace: seq<Step>, more: seq<Step>)
    requires forall i :: 0 <= i < |more| ==> !more[i].kind.PacketInNode?
    ensures Created(trace + more) == Created(trace)
  {
    hide Flights;
    if more == [] {
      assert trace + more == trace;
    } else {
      var init := more[..|more| - 1];
      assert (trace + more)[..|trace + more| - 1] == trace + init;
      NoneCreated(trace, init);
    }
  }

  lemma OneCreated(s: State, s1: State, kinds: seq<StepKind>)
    requires Adds(s, s1, kinds) && kinds != [] && QuietFrom(kinds, 1)
    ensures Created(s1.trace) == Created(s.trace) + if IsCreation(Flights(s.trace).Keys, kinds[0]) then 1 else 0
  {
    hide Flights;
    var added := Devices.StepsAt(kinds, s.now);
    var first := s.trace + [added[0]];
    assert s1.trace == first + added[1..];
    assert first[..|first| - 1] == s.trace;
    NoneCreated(first, added[1..]);
  }

  lemma NothingCreated(s: State, s1: State, kinds: seq<StepKind>)
    requires Adds(s, s1, kinds) && AddsNoPackets(kinds)
    ensures Created(s1.trace) == Created(s.trace)
  {
    NoneCreated(s.trace, Devices.StepsAt(kinds, s.now));
  }

  /** The next packet gets as its number how many there were before. */
  predicate CountsPackets(s: State) {
    s.nextNumber == Created(s.trace)
  }

  /** A new packet's step has that number, at least the size of the headers, and a host for its node. */
  predicate WellNumbered(c: Config, trace: seq<Step>, k: nat)
    requires k < |trace|
  {
    var kind := trace[k].kind;
    IsCreation(Flights(trace[..k]).Keys, kind) ==>
      kind.number == Created(trace[..k]) && 28 <= kind.size && kind.node in c.nodes && c.nodes[kind.node].kind.Host?
  }

  lemma QuietNumbers(c: Config, s: State, a: Action)
    requires ValidConfig(c) && Sane(c, s) && Enabled(c, s, a) && !OfLinkTask(a) && !a.Create? && !a.RunForwarder?
    ensures Perform(c, s, a).nextNumber == s.nextNumber && AddsNoPackets(QuietKinds(c, s, a))
  {
    if a.RunNodeTask? {
      KnownToBoth(c, s);
      hide ValidConfig, Candidates, OfferNext, Offered, PlacesOf;
      OffersKeepNumber(c, s, a);
    } else {
      hide ValidConfig, Sane;
    }
  }

  lemma OffersKeepNumber(c: Config, s: State, a: Action)
    requires ValidConfig(c) && Sane(c, s) && Enabled(c, s, a) && a.RunNodeTask?
    ensures Perform(c, s, a).nextNumber == s.nextNumber
  {
    KnownToBoth(c, s);
    hide ValidConfig, OfferAll, Candidates, DirectLinks, AllRoutedLinks, Addresses;
    var i := s.nodes[a.node].outbound[0];
    var links := Candidates(c, a.node, s.log[i].packet.destination.ip);
    CandidatesStartHere(c, a.node, s.log[i].packet.destination.ip);
    OffersLeaveLog(c, TakeOutbound(s, a.node), i, links, links, a.slow);
  }

  lemma ArrivalNumbers(c: Config, s: State, a: Action)
    requires ValidConfig(c) && Sane(c, s) && Enabled(c, s, a) && a.RunForwarder?
    ensures Perform(c, s, a).nextNumber == s.nextNumber
  {
    ArrivalIs(c, s, a);
    hide ValidConfig, Sane, Enabled, Perform, Forward, TargetNode;
    if !After(s.links[a.link].lastDown, s.log[a.record].fate.sent) {
      ForwardKeepsNumbers(c, WithRolled(s, a), TargetNode(c, a.link), s.log[a.record].packet, a.roll, Some(a.record));
    }
  }

  /** What an action does to the numbering: only a creation begins a packet's way, and counts on. */
  lemma ActionNumbers(c: Config, s: State, a: Action)
    requires ValidConfig(c) && Sane(c, s) && TasksWait(c, s) && Enabled(c, s, a)
    requires FlightsMatch(s) && IdsUsed(s.log, s.used) && CountsPackets(s)
    ensures CountsPackets(Perform(c, s, a)) && s.trace <= Perform(c, s, a).trace
    ensures forall k :: |s.trace| <= k < |Perform(c, s, a).trace| ==> WellNumbered(c, Perform(c, s, a).trace, k)
  {
    hide ValidConfig, Sane, TasksWait, Enabled, Perform, Shows, FlightsMatch, IdsUsed, Flights, Adds, QuietKinds, Created;
    var s1 := Perform(c, s, a);
    if OfLinkTask(a) {
      TaskNumbers(c, s, a);
    } else if a.Create? {
      var kinds := CreateAdds(c, s, a);
      CreateNumbers(c, s, a);
      CreationIs(c, s, a, kinds[0]);
      CreatedIsFresh(c, s, a);
      OneCreated(s, s1, kinds);
      NumberedFirst(c, s, s1, kinds);
    } else if a.RunForwarder? {
      var kinds := ArrivalAdds(c, s, a);
      ArrivalNumbers(c, s, a);
      ArrivalIsNone(c, s, a, kinds[0]);
      OneCreated(s, s1, kinds);
      NumberedFirst(c, s, s1, kinds);
    } else {
      var kinds := QuietAdds(c, s, a);
      QuietNumbers(c, s, a);
      NothingCreated(s, s1, kinds);
      NumberedNone(c, s, s1, kinds);
    }
  }

  lemma TaskNumbers(c: Config, s: State, a: Action)
    requires ValidConfig(c) && Sane(c, s) && TasksWait(c, s) && Enabled(c, s, a) && OfLinkTask(a) && CountsPackets(s)
    ensures CountsPackets(Perform(c, s, a)) && s.trace <= Perform(c, s, a).trace
    ensures forall k :: |s.trace| <= k < |Perform(c, s, a).trace| ==> WellNumbered(c, Perform(c, s, a).trace, k)
  {
    hide ValidConfig, Sane, TasksWait, Enabled, Perform, Works, Done, SpaceAfter, DecidesStart, DecidesResume, Created, Flights;
    var o, rest, d := TasksDecide(c, s, a);
    DecisionAdds(c, s, Perform(c, s, a), a.link, o, d);
    NoneCreated(s.trace, Perform(c, s, a).trace[|s.trace|..]);
    assert Perform(c, s, a).trace == s.trace + Perform(c, s, a).trace[|s.trace|..];
  }

  lemma CreationIs(c: Config, s: State, a: Action, k: StepKind)
    requires ValidConfig(c) && Sane(c, s) && Enabled(c, s, a) && a.Create? && Shows(c, s, a, k)
    ensures k.PacketInNode? && k.packet == a.id && k.number == s.nextNumber && 28 <= k.size
    ensures k.node in c.nodes && c.nodes[k.node].kind.Host?
  {
    hide ValidConfig, Sane;
  }

  lemma ArrivalIsNone(c: Config, s: State, a: Action, k: StepKind)
    requires ValidConfig(c) && Sane(c, s) && Enabled(c, s, a) && a.RunForwarder? && Shows(c, s, a, k) && FlightsMatch(s)
    ensures !IsCreation(Flights(s.trace).Keys, k)
  {
    hide ValidConfig, Sane, TargetNode, Flights;
    ArrivalShows(c, s, a, k);
  }

  lemma NumberedFirst(c: Config, s: State, s1: State, kinds: seq<StepKind>)
    requires Adds(s, s1, kinds) && kinds != [] && QuietFrom(kinds, 1)
    requires IsCreation(Flights(s.trace).Keys, kinds[0]) ==>
      kinds[0].number == Created(s.trace) && 28 <= kinds[0].size
      && kinds[0].node in c.nodes && c.nodes[kinds[0].node].kind.Host?
    ensures s.trace <= s1.trace
    ensures forall k :: |s.trace| <= k < |s1.trace| ==> WellNumbered(c, s1.trace, k)
  {
    hide Flights, Created;
    forall k | |s.trace| <= k < |s1.trace|
      ensures WellNumbered(c, s1.trace, k)
    {
      assert s1.trace[k].kind == kinds[k - |s.trace|];
      assert s1.trace[..|s.trace|] == s.trace;
    }
  }

  lemma NumberedNone(c: Config, s: State, s1: State, kinds: seq<StepKind>)
    requires Adds(s, s1, kinds) && AddsNoPackets(kinds)
    ensures s.trace <= s1.trace
    ensures forall k :: |s.trace| <= k < |s1.trace| ==> WellNumbered(c, s1.trace, k)
  {
    hide Flights, Created;
    forall k | |s.trace| <= k < |s1.trace|
      ensures WellNumbered(c, s1.trace, k)
    {
      assert s1.trace[k].kind == kinds[k - |s.trace|];
    }
  }

  lemma StillNumbered(c: Config, trace: seq<Step>, trace1: seq<Step>, k: nat)
    requires trace <= trace1 && k < |trace| && WellNumbered(c, trace, k)
    ensures WellNumbered(c, trace1, k)
  {
    hide Flights, Created;
    assert trace1[..k] == trace[..k];
  }

  /**
   * The packets of a run are numbered from zero in the order in which they begin their way, each on
   * a host, and none is smaller than the headers that every packet has.
   */
  lemma {:induction false} PacketsAreNumbered(c: Config, run: seq<Action>)
    requires ValidConfig(c) && IsRun(c, run)
    ensures CountsPackets(StateAfter(c, run).value)
    ensures var trace := StateAfter(c, run).value.trace; forall k :: 0 <= k < |trace| ==> WellNumbered(c, trace, k)
  {
    hide ValidConfig, ValidOrder, Sane, TasksWait, Enabled, Perform, AtRest, FlightsMatch, IdsUsed, WellNumbered;
    if run != [] {
      RunSnoc(c, run);
      hide StateAfter, CountsPackets;
      var init, a := run[..|run| - 1], run[|run| - 1];
      var s := StateAfter(c, init).value;
      PacketsAreNumbered(c, init);
      RunsAreSane(c, init);
      FlightsInRuns(c, init);
      ActionNumbers(c, s, a);
      forall k | 0 <= k < |s.trace|
        ensures WellNumbered(c, StateAfter(c, run).value.trace, k)
      {
        StillNumbered(c, s.trace, StateAfter(c, run).value.trace, k);
      }
    }
  }
}
