/** Where the simulator's packets are, against where the verifier believes them to be. */
module Ledger {
  import opened Types
  import opened Simulator
  import opened NodeReplay
  import opened Replay

  /** The verifier counts these as being in the node. */
  predicate IsHeld(f: Fate) {
    f.Arriving? || f.AtApp? || f.Buffered? || f.Stranded? || f.Phantom?
  }

  predicate IsLive(f: Fate) {
    IsHeld(f) || f.InTransit?
  }

  /** Which packets of a node a sum of bytes is over. */
  datatype Account =
    | Held       // those the verifier counts as being in the node
    | Charged    // those that take up space in the outbound buffer
    | Wiped      // those dropped by a buffer clear
    | Uncharged  // those held outside the outbound buffer

  predicate Counts(a: Account, f: Fate) {
    match a
    case Held => IsHeld(f)
    case Charged => f.Buffered? || f.Stranded? || f.Cleared?
    case Wiped => f.Cleared?
    case Uncharged => f.Arriving? || f.AtApp? || f.Phantom?
  }

  function Share(r: Record, n: NodeId, a: Account): nat {
    if r.node == n && Counts(a, r.fate) then r.packet.size else 0
  }

  function Bytes(log: seq<Record>, n: NodeId, a: Account): nat {
    if log == [] then 0 else Bytes(log[..|log| - 1], n, a) + Share(log[|log| - 1], n, a)
  }

  lemma BytesAppend(log: seq<Record>, r: Record, n: NodeId, a: Account)
    ensures Bytes(log + [r], n, a) == Bytes(log, n, a) + Share(r, n, a)
  {
    assert (log + [r])[..|log + [r]| - 1] == log;
  }

  lemma {:induction false} BytesUpdate(log: seq<Record>, i: nat, f: Fate, n: NodeId, a: Account)
    requires i < |log|
    ensures Bytes(log[i := log[i].(fate := f)], n, a) + Share(log[i], n, a)
         == Bytes(log, n, a) + Share(log[i].(fate := f), n, a)
  {
    var log1 := log[i := log[i].(fate := f)];
    if i == |log| - 1 {
      assert log1[..|log| - 1] == log[..|log| - 1];
    } else {
      BytesUpdate(log[..|log| - 1], i, f, n, a);
      assert log1[..|log| - 1] == log[..|log| - 1][i := log[i].(fate := f)];
    }
  }

  lemma {:induction false} BytesSplit(log: seq<Record>, n: NodeId)
    ensures Bytes(log, n, Held) + Bytes(log, n, Wiped) == Bytes(log, n, Charged) + Bytes(log, n, Uncharged)
  {
    if log != [] {
      BytesSplit(log[..|log| - 1], n);
    }
  }

  lemma {:induction false} NoBytes(log: seq<Record>, n: NodeId, a: Account)
    requires forall i :: 0 <= i < |log| && log[i].node == n ==> !Counts(a, log[i].fate)
    ensures Bytes(log, n, a) == 0
  {
    if log != [] {
      NoBytes(log[..|log| - 1], n, a);
    }
  }

  predicate HeldAt(log: seq<Record>, i: nat, n: NodeId, id: PacketId) {
    i < |log| && log[i].node == n && log[i].packet.id == id && IsHeld(log[i].fate)
  }

  predicate FlyingAs(log: seq<Record>, i: nat, id: PacketId) {
    i < |log| && log[i].packet.id == id && log[i].fate.InTransit?
  }

  /** No packet id is in two places at once. */
  ghost predicate IdsUnique(log: seq<Record>) {
    forall i, j :: 0 <= i < j < |log| && IsLive(log[i].fate) && IsLive(log[j].fate) ==>
      log[i].packet.id != log[j].packet.id
  }

  /** The verifier's packet maps mirror exactly the packets that wait in the nodes. */
  ghost predicate HoldingsMirrored(log: seq<Record>, nodes: map<NodeId, NodeView>) {
    && (forall i :: 0 <= i < |log| && IsHeld(log[i].fate) ==>
          var r := log[i];
          && r.node in nodes && r.packet.id in nodes[r.node].packets
          && nodes[r.node].packets[r.packet.id] == HeldPacket(r.since, r.packet.size, 0))
    && (forall n, id :: n in nodes && id in nodes[n].packets ==> exists i :: HeldAt(log, i, n, id))
  }

  /** The verifier's in-flight map mirrors exactly the packets on links. */
  ghost predicate FlightsMirrored(log: seq<Record>, inFlight: map<PacketId, InFlight>) {
    && (forall i :: 0 <= i < |log| && log[i].fate.InTransit? ==>
          var r := log[i];
          && r.packet.id in inFlight
          && inFlight[r.packet.id] == InFlight(r.packet.size, r.fate.sent, 0, r.fate.link))
    && (forall id :: id in inFlight ==> exists i :: FlyingAs(log, i, id))
  }

  ghost predicate UsageMirrored(log: seq<Record>, nodes: map<NodeId, NodeView>) {
    forall n :: n in nodes ==> nodes[n].bufferUsage == Bytes(log, n, Held)
  }

  ghost predicate Mirrored(log: seq<Record>, nodes: map<NodeId, NodeView>, inFlight: map<PacketId, InFlight>) {
    IdsUnique(log) && HoldingsMirrored(log, nodes) && FlightsMirrored(log, inFlight) && UsageMirrored(log, nodes)
  }

  predicate NotLive(log: seq<Record>, id: PacketId) {
    forall i :: 0 <= i < |log| && log[i].packet.id == id ==> !IsLive(log[i].fate)
  }

  // ----- What keeps the mirror true -----

  lemma StillUnique(log: seq<Record>, r: Record)
    requires IdsUnique(log) && NotLive(log, r.packet.id)
    ensures IdsUnique(log + [r])
  {
  }

  lemma HeldAlso(log: seq<Record>, nodes: map<NodeId, NodeView>, r: Record, view: NodeView)
    requires HoldingsMirrored(log, nodes)
    requires r.node in nodes && IsHeld(r.fate)
    requires forall n :: n in nodes ==> r.packet.id !in nodes[n].packets
    requires view.packets == nodes[r.node].packets[r.packet.id := HeldPacket(r.since, r.packet.size, 0)]
    ensures HoldingsMirrored(log + [r], nodes[r.node := view])
  {
    var log1, nodes1 := log + [r], nodes[r.node := view];
    assert log1[|log|] == r;
    forall i | 0 <= i < |log| && IsHeld(log1[i].fate)
      ensures var q := log1[i];
        && q.node in nodes1 && q.packet.id in nodes1[q.node].packets
        && nodes1[q.node].packets[q.packet.id] == HeldPacket(q.since, q.packet.size, 0)
    {
      assert log1[i] == log[i];
    }
    forall n, id | n in nodes1 && id in nodes1[n].packets
      ensures exists i :: HeldAt(log1, i, n, id)
    {
      if n == r.node && id == r.packet.id {
        assert HeldAt(log1, |log|, n, id);
      } else {
        var i :| HeldAt(log, i, n, id);
        assert HeldAt(log1, i, n, id);
      }
    }
  }

  /** A packet turns up in a node. */
  lemma MirrorAdd(log: seq<Record>, nodes: map<NodeId, NodeView>, inFlight: map<PacketId, InFlight>,
                  r: Record, view: NodeView)
    requires Mirrored(log, nodes, inFlight)
    requires r.node in nodes && IsHeld(r.fate) && NotLive(log, r.packet.id)
    requires view.packets == nodes[r.node].packets[r.packet.id := HeldPacket(r.since, r.packet.size, 0)]
    requires view.bufferUsage == nodes[r.node].bufferUsage + r.packet.size
    ensures r.packet.id !in nodes[r.node].packets && r.packet.id !in inFlight
    ensures Mirrored(log + [r], nodes[r.node := view], inFlight)
  {
    var log1, nodes1 := log + [r], nodes[r.node := view];
    AbsentIfNotLive(log, nodes, inFlight, r.packet.id);
    StillUnique(log, r);
    HeldAlso(log, nodes, r, view);
    FlightsKept(log, log1, inFlight);
    hide HoldingsMirrored, FlightsMirrored, IdsUnique, NotLive;
    forall n | n in nodes1
      ensures nodes1[n].bufferUsage == Bytes(log1, n, Held)
    {
      BytesAppend(log, r, n, Held);
    }
  }

  lemma AbsentIfNotLive(log: seq<Record>, nodes: map<NodeId, NodeView>, inFlight: map<PacketId, InFlight>, id: PacketId)
    requires HoldingsMirrored(log, nodes) && FlightsMirrored(log, inFlight) && NotLive(log, id)
    ensures forall n :: n in nodes ==> id !in nodes[n].packets
    ensures id !in inFlight
  {
    forall n | n in nodes
      ensures id !in nodes[n].packets
    {
      assert forall i: nat :: !HeldAt(log, i, n, id);
    }
    assert forall i: nat :: !FlyingAs(log, i, id);
  }

  lemma FlightsKept(log: seq<Record>, log1: seq<Record>, inFlight: map<PacketId, InFlight>)
    requires FlightsMirrored(log, inFlight) && |log| <= |log1|
    requires forall i :: 0 <= i < |log| && (log[i].fate.InTransit? || log1[i].fate.InTransit?) ==> log1[i] == log[i]
    requires forall i :: |log| <= i < |log1| ==> !log1[i].fate.InTransit?
    ensures FlightsMirrored(log1, inFlight)
  {
    forall id | id in inFlight
      ensures exists i :: FlyingAs(log1, i, id)
    {
      var i :| FlyingAs(log, i, id);
      assert FlyingAs(log1, i, id);
    }
  }

  lemma HoldingsKept(log: seq<Record>, log1: seq<Record>, nodes: map<NodeId, NodeView>)
    requires HoldingsMirrored(log, nodes) && |log| <= |log1|
    requires forall i :: 0 <= i < |log| && (IsHeld(log[i].fate) || IsHeld(log1[i].fate)) ==> log1[i] == log[i]
    requires forall i :: |log| <= i < |log1| ==> !IsHeld(log1[i].fate)
    ensures HoldingsMirrored(log1, nodes)
  {
    forall n, id | n in nodes && id in nodes[n].packets
      ensures exists i :: HeldAt(log1, i, n, id)
    {
      var i :| HeldAt(log, i, n, id);
      assert HeldAt(log1, i, n, id);
    }
  }

  /** A record that is no packet's whereabouts. */
  lemma MirrorNote(log: seq<Record>, nodes: map<NodeId, NodeView>, inFlight: map<PacketId, InFlight>, r: Record)
    requires Mirrored(log, nodes, inFlight) && !IsLive(r.fate)
    ensures Mirrored(log + [r], nodes, inFlight)
  {
    var log1 := log + [r];
    HoldingsKept(log, log1, nodes);
    FlightsKept(log, log1, inFlight);
    forall n | n in nodes
      ensures nodes[n].bufferUsage == Bytes(log1, n, Held)
    {
      BytesAppend(log, r, n, Held);
    }
  }

  lemma HeldKept(log: seq<Record>, nodes: map<NodeId, NodeView>, i: nat, f: Fate)
    requires IdsUnique(log) && HoldingsMirrored(log, nodes)
    requires i < |log| && IsHeld(log[i].fate) && IsHeld(f)
    ensures IdsUnique(log[i := log[i].(fate := f)]) && HoldingsMirrored(log[i := log[i].(fate := f)], nodes)
  {
    var log1 := log[i := log[i].(fate := f)];
    forall n, id | n in nodes && id in nodes[n].packets
      ensures exists j :: HeldAt(log1, j, n, id)
    {
      var j :| HeldAt(log, j, n, id);
      assert HeldAt(log1, j, n, id);
    }
  }

  /** A packet stays in its node, in another role. */
  lemma MirrorKeep(log: seq<Record>, nodes: map<NodeId, NodeView>, inFlight: map<PacketId, InFlight>, i: nat, f: Fate)
    requires Mirrored(log, nodes, inFlight) && i < |log| && IsHeld(log[i].fate) && IsHeld(f)
    ensures Mirrored(log[i := log[i].(fate := f)], nodes, inFlight)
  {
    var log1 := log[i := log[i].(fate := f)];
    HeldKept(log, nodes, i, f);
    FlightsKept(log, log1, inFlight);
    hide HoldingsMirrored, FlightsMirrored;
    forall n | n in nodes
      ensures nodes[n].bufferUsage == Bytes(log1, n, Held)
    {
      BytesUpdate(log, i, f, n, Held);
    }
  }

  /** The verifier's view of a node once it let go of a packet. */
  predicate LetsGo(before: NodeView, after: NodeView, id: PacketId) {
    && id in before.packets && after.packets == before.packets - {id}
    && after.bufferUsage == before.bufferUsage - before.packets[id].size
  }

  lemma HeldWithout(log: seq<Record>, nodes: map<NodeId, NodeView>, i: nat, f: Fate, view: NodeView)
    requires IdsUnique(log) && HoldingsMirrored(log, nodes)
    requires i < |log| && IsHeld(log[i].fate) && !IsHeld(f)
    requires LetsGo(nodes[log[i].node], view, log[i].packet.id)
    ensures HoldingsMirrored(log[i := log[i].(fate := f)], nodes[log[i].node := view])
  {
    var log1, nodes1 := log[i := log[i].(fate := f)], nodes[log[i].node := view];
    forall n, id | n in nodes1 && id in nodes1[n].packets
      ensures exists j :: HeldAt(log1, j, n, id)
    {
      var j :| HeldAt(log, j, n, id);
      assert HeldAt(log1, j, n, id);
    }
    forall j | 0 <= j < |log1| && IsHeld(log1[j].fate)
      ensures var r := log1[j];
        && r.node in nodes1 && r.packet.id in nodes1[r.node].packets
        && nodes1[r.node].packets[r.packet.id] == HeldPacket(r.since, r.packet.size, 0)
    {
      assert j != i && log1[j] == log[j];
      assert log[j].packet.id != log[i].packet.id;
    }
  }

  lemma HoldingsWithout(log: seq<Record>, nodes: map<NodeId, NodeView>, i: nat, f: Fate, view: NodeView)
    requires IdsUnique(log) && HoldingsMirrored(log, nodes) && UsageMirrored(log, nodes)
    requires i < |log| && IsHeld(log[i].fate) && !IsHeld(f)
    requires LetsGo(nodes[log[i].node], view, log[i].packet.id)
    ensures HoldingsMirrored(log[i := log[i].(fate := f)], nodes[log[i].node := view])
    ensures UsageMirrored(log[i := log[i].(fate := f)], nodes[log[i].node := view])
  {
    HeldWithout(log, nodes, i, f, view);
    var log1, nodes1 := log[i := log[i].(fate := f)], nodes[log[i].node := view];
    forall n | n in nodes1
      ensures nodes1[n].bufferUsage == Bytes(log1, n, Held)
    {
      BytesUpdate(log, i, f, n, Held);
    }
  }

  /** A packet leaves its node for good. */
  lemma MirrorRemove(log: seq<Record>, nodes: map<NodeId, NodeView>, inFlight: map<PacketId, InFlight>,
                     i: nat, f: Fate, view: NodeView)
    requires Mirrored(log, nodes, inFlight) && i < |log| && IsHeld(log[i].fate) && !IsLive(f)
    requires LetsGo(nodes[log[i].node], view, log[i].packet.id)
    ensures Mirrored(log[i := log[i].(fate := f)], nodes[log[i].node := view], inFlight)
  {
    HoldingsWithout(log, nodes, i, f, view);
    FlightsKept(log, log[i := log[i].(fate := f)], inFlight);
  }

  /** A packet goes from its node onto a link. */
  lemma MirrorSend(log: seq<Record>, nodes: map<NodeId, NodeView>, inFlight: map<PacketId, InFlight>,
                   i: nat, f: Fate, view: NodeView)
    requires Mirrored(log, nodes, inFlight) && i < |log| && IsHeld(log[i].fate) && f.InTransit?
    requires LetsGo(nodes[log[i].node], view, log[i].packet.id)
    ensures Mirrored(log[i := log[i].(fate := f)], nodes[log[i].node := view],
                     inFlight[log[i].packet.id := InFlight(log[i].packet.size, f.sent, 0, f.link)])
  {
    HoldingsWithout(log, nodes, i, f, view);
    var log1 := log[i := log[i].(fate := f)];
    var inFlight1 := inFlight[log[i].packet.id := InFlight(log[i].packet.size, f.sent, 0, f.link)];
    forall id | id in inFlight1
      ensures exists j :: FlyingAs(log1, j, id)
    {
      if id == log[i].packet.id {
        assert FlyingAs(log1, i, id);
      } else {
        var j :| FlyingAs(log, j, id);
        assert FlyingAs(log1, j, id);
      }
    }
  }

  lemma FlightsWithout(log: seq<Record>, inFlight: map<PacketId, InFlight>, i: nat, f: Fate)
    requires IdsUnique(log) && FlightsMirrored(log, inFlight)
    requires i < |log| && log[i].fate.InTransit? && !IsLive(f)
    ensures FlightsMirrored(log[i := log[i].(fate := f)], inFlight - {log[i].packet.id})
  {
    var log1, inFlight1 := log[i := log[i].(fate := f)], inFlight - {log[i].packet.id};
    forall id | id in inFlight1
      ensures exists j :: FlyingAs(log1, j, id)
    {
      var j :| FlyingAs(log, j, id);
      assert FlyingAs(log1, j, id);
    }
    forall j | 0 <= j < |log1| && log1[j].fate.InTransit?
      ensures log1[j].packet.id in inFlight1
    {
      assert j != i && log1[j] == log[j];
      assert log[j].packet.id != log[i].packet.id;
    }
  }

  /** A packet comes off its link. */
  lemma MirrorLand(log: seq<Record>, nodes: map<NodeId, NodeView>, inFlight: map<PacketId, InFlight>, i: nat, f: Fate)
    requires Mirrored(log, nodes, inFlight) && i < |log| && log[i].fate.InTransit? && !IsLive(f)
    ensures Mirrored(log[i := log[i].(fate := f)], nodes, inFlight - {log[i].packet.id})
    ensures NotLive(log[i := log[i].(fate := f)], log[i].packet.id)
  {
    var log1 := log[i := log[i].(fate := f)];
    HoldingsKept(log, log1, nodes);
    FlightsWithout(log, inFlight, i, f);
    forall n | n in nodes
      ensures nodes[n].bufferUsage == Bytes(log1, n, Held)
    {
      BytesUpdate(log, i, f, n, Held);
    }
  }
}
