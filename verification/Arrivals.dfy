/** What becomes of a packet that is created in a node or comes off a link into one, for every case. */
module Arrivals {
  import opened Types
  import opened Network
  import opened Status
  import opened Simulator
  import opened LinkMoves
  import opened LinkTasks
  import opened Sanity
  import opened QueueContents
  import Devices

  /** What is recorded of the packet, which packets join the node's buffer, and which its application. */
  datatype Fare = Fare(kinds: seq<StepKind>, queued: seq<Packet>, forApp: seq<Packet>)

  /** The packet is for the application on the host: to its first address, and port 8080. */
  predicate ForHost(spec: NodeSpec, destination: SocketAddr) {
    spec.kind.Host? && Addresses(spec) != [] && destination.ip == Addresses(spec)[0] && destination.port == 8080
  }

  /** A packet is buffered exactly if the free space has room for all of it. */
  predicate FaresBuffered(n: NodeId, available: nat, p: Packet, f: Fare) {
    f == if available < p.size then Fare([PacketDropped(p.id, n, BufferFull)], [], []) else Fare([], [p], [])
  }

  /** The packet itself goes first, then its duplicate, which has an id of its own and what space is left. */
  predicate FaresTwice(n: NodeId, available: nat, p: Packet, id: PacketId, f: Fare) {
    var second := p.(id := id);
    var left := if available < p.size then available else available - p.size;
    var shown := PacketDuplicated(id, p.number, p.size, n);
    f == Fare((if available < p.size then [PacketDropped(p.id, n, BufferFull)] else []) + [shown]
              + (if left < p.size then [PacketDropped(id, n, BufferFull)] else []),
              (if available < p.size then [] else [p]) + (if left < p.size then [] else [second]), [])
  }

  predicate FaresOn(n: NodeId, available: nat, p: Packet, roll: Roll, f: Fare) {
    match roll
    case Lose => f == Fare([PacketDropped(p.id, n, Random)], [], [])
    case Keep => FaresBuffered(n, available, p, f)
    case Duplicate(id) => FaresTwice(n, available, p, id, f)
  }

  /** After its arrival is recorded: nothing more in a node that is down, then the application, then the roll. */
  predicate Fares(spec: NodeSpec, node: SimNode, n: NodeId, p: Packet, roll: Roll, f: Fare) {
    var down := node.status.status.Down?;
    && f.kinds != [] && f.kinds[0] == PacketInNode(p.id, p.number, p.size, n, down)
    && var rest := f.(kinds := f.kinds[1..]);
       if down then rest == Fare([], [], [])
       else if ForHost(spec, p.destination) then rest == Fare([], [], [p])
       else FaresOn(n, node.available, p, roll, rest)
  }

  /** The change from `s` to `s1` is that outcome in node `n`, and nothing on any link or in any other node. */
  ghost predicate Fared(s: State, s1: State, n: NodeId, f: Fare)
    requires n in s.nodes
  {
    Devices.HadEffect(s, s1, n, Devices.Effect(f.kinds, f.queued, f.forApp))
  }

  lemma EffectIsFare(spec: NodeSpec, node: SimNode, n: NodeId, endpoint: bool, p: Packet, roll: Roll)
    requires endpoint <==> ForHost(spec, p.destination)
    ensures var e := Devices.ForwardEffect(n, node.status.status.Up?, endpoint, node.available, p, roll);
      Fares(spec, node, n, p, roll, Fare(e.kinds, e.queued, e.forApp))
  {
  }

  lemma EndpointIs(c: Config, n: NodeId, destination: SocketAddr)
    requires ValidConfig(c) && n in c.nodes
    ensures IsEndpoint(c, n, destination) <==> ForHost(c.nodes[n], destination)
  {
  }

  lemma ForwardFares(c: Config, s: State, n: NodeId, p: Packet, roll: Roll, origin: Option<nat>) returns (f: Fare)
    requires ValidConfig(c) && n in s.nodes && n in c.nodes
    requires origin.Some? ==> origin.value < |s.log| && s.log[origin.value].fate.InTransit?
    ensures Fares(c.nodes[n], s.nodes[n], n, p, roll, f) && Fared(s, Forward(c, s, n, p, roll, origin), n, f)
  {
    hide ValidConfig, IsEndpoint, ForHost, Forward, Devices.HadEffect, Devices.ForwardEffect, Fares;
    EndpointIs(c, n, p.destination);
    var endpoint := IsEndpoint(c, n, p.destination);
    var e := Devices.ForwardEffect(n, NodeUp(s, n), endpoint, s.nodes[n].available, p, roll);
    Devices.ForwardHasEffect(c, s, n, p, roll, origin);
    EffectIsFare(c.nodes[n], s.nodes[n], n, endpoint, p, roll);
    f := Fare(e.kinds, e.queued, e.forApp);
    assert Devices.Effect(f.kinds, f.queued, f.forApp) == e;
  }

  lemma FaredFrom(s: State, s0: State, s1: State, n: NodeId, f: Fare)
    requires n in s.nodes && s0 == s.(used := s0.used, nextNumber := s0.nextNumber) && Fared(s0, s1, n, f)
    ensures Fared(s, s1, n, f)
  {
    hide ContentsOf;
  }

  /** A host's new packet gets the next number, and fares as any packet that comes into the node. */
  lemma CreationsFare(c: Config, s: State, a: Action) returns (f: Fare)
    requires ValidConfig(c) && Sane(c, s) && Enabled(c, s, a) && a.Create?
    ensures a.node in s.nodes && a.node in c.nodes && Perform(c, s, a).nextNumber == s.nextNumber + 1
    ensures Fares(c.nodes[a.node], s.nodes[a.node], a.node, Packet(a.id, s.nextNumber, a.size, a.destination), a.roll, f)
    ensures Fared(s, Perform(c, s, a), a.node, f)
  {
    CreateIs(c, s, a);
    CreateNumbers(c, s, a);
    hide ValidConfig, Sane, Enabled, Perform, Forward, Fares, Fared;
    f := ForwardFares(c, WithCreated(s, a), a.node, NewPacket(s, a), a.roll, None);
    FaredFrom(s, WithCreated(s, a), Perform(c, s, a), a.node, f);
  }

  lemma EnqueueKeepsNumbers(s: State, i: nat)
    requires i < |s.log| && s.log[i].node in s.nodes
    ensures var s1 := EnqueueOutbound(s, i);
      && s1.nextNumber == s.nextNumber && s1.used == s.used && |s1.log| == |s.log| && s1.nodes.Keys == s.nodes.Keys
  {
  }

  lemma PlaceKeepsNumbers(c: Config, s: State, i: nat, roll: Roll)
    requires ValidConfig(c) && i < |s.log| && s.log[i].node in s.nodes && s.log[i].node in c.nodes
    ensures Place(c, s, i, roll).nextNumber == s.nextNumber && Place(c, s, i, roll).used == s.used
  {
    hide ValidConfig, IsEndpoint, EnqueueOutbound;
    EnqueueKeepsNumbers(s, i);
    if roll.Duplicate? {
      EnqueueKeepsNumbers(ArriveDuplicate(EnqueueOutbound(s, i), s.log[i].node, s.log[i].packet.(id := roll.id)), |s.log|);
    }
  }

  lemma ForwardKeepsNumbers(c: Config, s: State, n: NodeId, p: Packet, roll: Roll, origin: Option<nat>)
    requires ValidConfig(c) && n in s.nodes && n in c.nodes && (origin.Some? ==> origin.value < |s.log|)
    ensures Forward(c, s, n, p, roll, origin).nextNumber == s.nextNumber
    ensures Forward(c, s, n, p, roll, origin).used == s.used
  {
    hide ValidConfig, Place;
    if NodeUp(s, n) {
      PlaceKeepsNumbers(c, Arrive(s, n, p, origin), |s.log|, roll);
    }
  }

  lemma CreateNumbers(c: Config, s: State, a: Action)
    requires ValidConfig(c) && Sane(c, s) && Enabled(c, s, a) && a.Create?
    ensures Perform(c, s, a).nextNumber == s.nextNumber + 1
  {
    hide ValidConfig, Sane, Enabled, Perform, Forward;
    CreateIs(c, s, a);
    ForwardKeepsNumbers(c, WithCreated(s, a), a.node, NewPacket(s, a), a.roll, None);
  }

  /** What comes off a link is lost if the link went down after it was sent; else it fares as it does in the node at the end. */
  lemma ArrivalsFare(c: Config, s: State, a: Action) returns (f: Fare)
    requires ValidConfig(c) && Sane(c, s) && Enabled(c, s, a) && a.RunForwarder?
    ensures a.record < |s.log| && s.log[a.record].fate.InTransit? && a.link in s.links && a.link in c.links
    ensures TargetNode(c, a.link) in s.nodes && TargetNode(c, a.link) in c.nodes
    ensures var r, lastDown, s1 := s.log[a.record], s.links[a.link].lastDown, Perform(c, s, a);
      var n := TargetNode(c, a.link);
      if lastDown.Some? && r.fate.sent < lastDown.value then
        s1.trace == s.trace + [Step(s.now, PacketLostInTransit(r.packet.id, a.link))]
        && s1.log == s.log[a.record := r.(fate := LostInTransit)] && s1.nodes == s.nodes && s1.links == s.links
      else Fares(c.nodes[n], s.nodes[n], n, r.packet, a.roll, f) && Fared(s, s1, n, f)
  {
    ArrivalIs(c, s, a);
    hide ValidConfig, Sane, Enabled, Perform, Forward, Fares, Fared, TargetNode;
    f := Fare([], [], []);
    if !After(s.links[a.link].lastDown, s.log[a.record].fate.sent) {
      f := ForwardFares(c, WithRolled(s, a), TargetNode(c, a.link), s.log[a.record].packet, a.roll, Some(a.record));
      FaredFrom(s, WithRolled(s, a), Perform(c, s, a), TargetNode(c, a.link), f);
    }
  }

  // ----- No arrival wipes anything -----

  predicate NoWipes(kinds: seq<StepKind>) {
    forall i :: 0 <= i < |kinds| ==> !(kinds[i].PacketDropped? && kinds[i].reason.BufferCleared?)
  }

  lemma FaresWipeNone(spec: NodeSpec, node: SimNode, n: NodeId, p: Packet, roll: Roll, f: Fare)
    requires Fares(spec, node, n, p, roll, f)
    ensures NoWipes(f.kinds)
  {
    hide ForHost;
    assert f.kinds == [f.kinds[0]] + f.kinds[1..];
  }
}
