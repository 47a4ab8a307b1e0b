/** The verifier's record of one node, as a value: what each replayed step does to it. */
module NodeReplay {
  import opened Types

  datatype NonFatalError =
    | NodeExceedsBufferSize(node: NodeId, bufferSize: nat, maxUsage: nat)
    | NodeDownPacketSend(node: NodeId, packet: PacketId)
    | NodeDownPacketReceive(node: NodeId, packet: PacketId)
    | NodeUpPacketDroppedOnArrival(node: NodeId, packet: PacketId)
    | PacketSurvivedBufferCorruption(node: NodeId, packet: PacketId)
    | PacketCreatedByRouterNode(node: NodeId, packet: PacketId)
    | MissingLostPacket(packet: PacketId)
    | OfflinePacketSend(node: NodeId, link: LinkId)
    | DisconnectedPacketSend(node: NodeId, link: LinkId)
    | DisconnectedPacketReceive(node: NodeId, link: LinkId)
    | TooFastPacketReceive(node: NodeId, link: LinkId)
    | OfflinePacketReceive(node: NodeId, link: LinkId, sent: Time, lastDown: Time)
    | LinkBandwidthExceeded(node: NodeId, link: LinkId, packet: PacketId, maxBps: nat, observedBps: nat)

  datatype FatalError =
    | MissingNode(node: NodeId)
    | MissingLink(link: LinkId)
    | MissingPacket(packet: PacketId)
    | PacketAlreadyReceived(packet: PacketId)

  datatype PacketStats = PacketStats(packets: nat, bytes: nat) {
    function TrackOne(sizeBytes: nat): PacketStats {
      PacketStats(packets + 1, bytes + sizeBytes)
    }
  }

  const NO_PACKETS := PacketStats(0, 0)

  datatype HeldPacket = HeldPacket(arrivedAt: Time, size: nat, extraDelay: Time)

  datatype NodeView = NodeView(
    up: bool,
    lastDown: Option<Time>,
    lastBufferClear: Option<Time>,
    packets: map<PacketId, HeldPacket>,
    highestReceived: nat,
    sent: PacketStats,
    received: PacketStats,
    reordered: PacketStats,
    ecn: PacketStats,
    duplicated: PacketStats,
    droppedInjected: PacketStats,
    droppedBufferFull: PacketStats,
    droppedBufferCleared: PacketStats,
    droppedDown: PacketStats,
    bufferUsage: nat,
    maxBufferUsage: nat)

  const FRESH_NODE := NodeView(true, None, None, map[], 0,
    NO_PACKETS, NO_PACKETS, NO_PACKETS, NO_PACKETS, NO_PACKETS,
    NO_PACKETS, NO_PACKETS, NO_PACKETS, NO_PACKETS, 0, 0)

  /** The node after one call, and the non-fatal errors the call tracked; or the fatal error that ended it. */
  datatype NodeResult =
    | NodeOk(node: NodeView, errors: seq<NonFatalError>)
    | NodeFatal(fatal: FatalError, errors: seq<NonFatalError>)

  // ----- Bytes held -----

  ghost function SumSizes(packets: map<PacketId, HeldPacket>): nat
    decreases |packets|
  {
    if packets == map[] then 0
    else
      var id :| id in packets;
      packets[id].size + SumSizes(packets - {id})
  }

  lemma {:induction false} SumSizesRemove(packets: map<PacketId, HeldPacket>, id: PacketId)
    requires id in packets
    ensures SumSizes(packets) == packets[id].size + SumSizes(packets - {id})
    decreases |packets|
  {
    var first :| first in packets && SumSizes(packets) == packets[first].size + SumSizes(packets - {first});
    if first != id {
      SumSizesRemove(packets - {first}, id);
      SumSizesRemove(packets - {id}, first);
      assert packets - {first} - {id} == packets - {id} - {first};
    }
  }

  lemma {:induction false} SumSizesInsert(packets: map<PacketId, HeldPacket>, id: PacketId, p: HeldPacket)
    requires id !in packets
    ensures SumSizes(packets[id := p]) == SumSizes(packets) + p.size
  {
    SumSizesRemove(packets[id := p], id);
    assert packets[id := p] - {id} == packets;
  }

  lemma {:induction false} SumSizesUpdate(packets: map<PacketId, HeldPacket>, id: PacketId, p: HeldPacket)
    requires id in packets && p.size == packets[id].size
    ensures SumSizes(packets[id := p]) == SumSizes(packets)
  {
    SumSizesRemove(packets[id := p], id);
    SumSizesRemove(packets, id);
    assert packets[id := p] - {id} == packets - {id};
  }

  /** The usage counter is the total size of the packets held. */
  ghost predicate Tallied(n: NodeView) {
    n.bufferUsage == SumSizes(n.packets)
  }

  // ----- Steps -----

  function AddPacket(n: NodeView, self: NodeId, id: PacketId, size: nat, now: Time): (r: NodeResult)
    ensures r.NodeFatal? <==> id in n.packets
  {
    var errors := if n.up then [] else [NodeDownPacketReceive(self, id)];
    if id in n.packets then NodeFatal(PacketAlreadyReceived(id), errors)
    else
      NodeOk(n.(packets := n.packets[id := HeldPacket(now, size, 0)], bufferUsage := n.bufferUsage + size), errors)
  }

  /** The node once a packet it holds is gone; the usage counter never underflows. */
  function RemovePacket(n: NodeView, id: PacketId): NodeView
    requires id in n.packets && Tallied(n)
  {
    SumSizesRemove(n.packets, id);
    n.(packets := n.packets - {id}, bufferUsage := n.bufferUsage - n.packets[id].size)
  }

  function Created(n: NodeView, self: NodeId, id: PacketId, size: nat, now: Time): NodeResult {
    AddPacket(n, self, id, size, now)
  }

  function Received(n: NodeView, self: NodeId, id: PacketId, number: nat, size: nat,
                    droppedOnArrival: bool, now: Time): NodeResult
  {
    var n1 := n.(
      received := n.received.TrackOne(size),
      reordered := if number < n.highestReceived then n.reordered.TrackOne(size) else n.reordered,
      highestReceived := Max(n.highestReceived, number));
    if droppedOnArrival then
      NodeOk(n1.(droppedDown := n1.droppedDown.TrackOne(size)),
             if n.up then [NodeUpPacketDroppedOnArrival(self, id)] else [])
    else AddPacket(n1, self, id, size, now)
  }

  function Duplicated(n: NodeView, self: NodeId, id: PacketId, size: nat, now: Time): NodeResult {
    AddPacket(n.(duplicated := n.duplicated.TrackOne(size)), self, id, size, now)
  }

  predicate Survived(n: NodeView, p: HeldPacket) {
    n.lastBufferClear.Some? && p.arrivedAt < n.lastBufferClear.value
  }

  function Sent(n: NodeView, self: NodeId, id: PacketId): NodeResult
    requires Tallied(n)
  {
    var errors := if n.up then [] else [NodeDownPacketSend(self, id)];
    if id !in n.packets then NodeFatal(MissingPacket(id), errors)
    else
      var p := n.packets[id];
      NodeOk(RemovePacket(n, id).(sent := n.sent.TrackOne(p.size)),
             errors + if Survived(n, p) then [PacketSurvivedBufferCorruption(self, id)] else [])
  }

  function Delivered(n: NodeView, id: PacketId): NodeResult
    requires Tallied(n)
  {
    if id !in n.packets then NodeFatal(MissingPacket(id), []) else NodeOk(RemovePacket(n, id), [])
  }

  function Dropped(n: NodeView, id: PacketId, reason: DropReason): NodeResult
    requires Tallied(n)
  {
    if id !in n.packets then NodeFatal(MissingPacket(id), [])
    else
      var size := n.packets[id].size;
      var n1 := RemovePacket(n, id);
      NodeOk(match reason
             case Random => n1.(droppedInjected := n.droppedInjected.TrackOne(size))
             case BufferFull => n1.(droppedBufferFull := n.droppedBufferFull.TrackOne(size))
             case BufferCleared => n1.(droppedBufferCleared := n.droppedBufferCleared.TrackOne(size)), [])
  }

  function Ecn(n: NodeView, size: nat): NodeView {
    n.(ecn := n.ecn.TrackOne(size))
  }

  function HasExtraDelay(n: NodeView, id: PacketId, delay: Time): NodeResult {
    if id !in n.packets then NodeFatal(MissingPacket(id), [])
    else NodeOk(n.(packets := n.packets[id := n.packets[id].(extraDelay := delay)]), [])
  }

  function HandleEvent(n: NodeView, e: NodeEvent, now: Time): NodeView {
    n.(up := if e.status.Some? then e.status.value.GoUp? else n.up,
       lastDown := if e.status == Some(GoDown) then Some(now) else n.lastDown,
       lastBufferClear := if e.clearBuffer then Some(now) else n.lastBufferClear)
  }

  function UpdateMaxUsage(n: NodeView): NodeView {
    n.(maxBufferUsage := Max(n.bufferUsage, n.maxBufferUsage))
  }

  /** Every step keeps the usage counter equal to the bytes held, so `checked_sub` never fails. */
  lemma {:induction false} StepsKeepTally(n: NodeView, self: NodeId, id: PacketId, number: nat, size: nat,
                                          dropped: bool, reason: DropReason, delay: Time, now: Time)
    requires Tallied(n)
    ensures var r := Created(n, self, id, size, now); r.NodeOk? ==> Tallied(r.node)
    ensures var r := Received(n, self, id, number, size, dropped, now); r.NodeOk? ==> Tallied(r.node)
    ensures var r := Duplicated(n, self, id, size, now); r.NodeOk? ==> Tallied(r.node)
    ensures var r := Sent(n, self, id); r.NodeOk? ==> Tallied(r.node)
    ensures var r := Delivered(n, id); r.NodeOk? ==> Tallied(r.node)
    ensures var r := Dropped(n, id, reason); r.NodeOk? ==> Tallied(r.node)
    ensures var r := HasExtraDelay(n, id, delay); r.NodeOk? ==> Tallied(r.node)
  {
    if id in n.packets {
      SumSizesRemove(n.packets, id);
      SumSizesUpdate(n.packets, id, n.packets[id].(extraDelay := delay));
    } else {
      SumSizesInsert(n.packets, id, HeldPacket(now, size, 0));
    }
  }
}
