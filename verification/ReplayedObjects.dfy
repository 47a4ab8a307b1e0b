/** The verifier's mutable records of nodes and links, each tied to its value and the step functions on it. */
module ReplayedObjects {
  import opened Types
  import opened BandwidthWindow
  import opened NodeReplay

  class ErrorTracker {
    var nonFatalErrors: seq<NonFatalError>

    constructor ()
      ensures nonFatalErrors == []
    {
      nonFatalErrors := [];
    }

    method Track(error: NonFatalError)
      modifies this
      ensures nonFatalErrors == old(nonFatalErrors) + [error]
    {
      nonFatalErrors := nonFatalErrors + [error];
    }
  }

  class ReplayedNode {
    const id: NodeId
    const errorTracker: ErrorTracker
    var status: UpDown
    var lastDown: Option<Time>
    var lastBufferClear: Option<Time>
    var packets: map<PacketId, HeldPacket>
    var highestReceived: nat
    var sentPackets: PacketStats
    var receivedPackets: PacketStats
    var reorderedPacketsReceived: PacketStats
    var ecnPackets: PacketStats
    var duplicatedPackets: PacketStats
    var droppedPacketsInjected: PacketStats
    var droppedPacketsBufferFull: PacketStats
    var droppedPacketsBufferCleared: PacketStats
    var droppedPacketsDown: PacketStats
    var bufferUsage: nat
    var maxBufferUsage: nat

    ghost function View(): NodeView
      reads this
    {
      NodeView(status.GoUp?, lastDown, lastBufferClear, packets, highestReceived,
               sentPackets, receivedPackets, reorderedPacketsReceived, ecnPackets, duplicatedPackets,
               droppedPacketsInjected, droppedPacketsBufferFull, droppedPacketsBufferCleared, droppedPacketsDown,
               bufferUsage, maxBufferUsage)
    }

    ghost predicate Valid()
      reads this
    {
      Tallied(View())
    }

    /** What a call did, against the function that says what it should do. */
    ghost predicate Did(r: NodeResult, errorsBefore: seq<NonFatalError>, fatal: Option<FatalError>)
      reads this, errorTracker
    {
      && errorTracker.nonFatalErrors == errorsBefore + r.errors
      && (r.NodeOk? ==> fatal.None? && View() == r.node && Valid())
      && (r.NodeFatal? ==> fatal == Some(r.fatal))
    }

    constructor (id: NodeId, errorTracker: ErrorTracker)
      ensures Valid() && View() == FRESH_NODE
      ensures this.id == id && this.errorTracker == errorTracker
    {
      this.id, this.errorTracker := id, errorTracker;
      status, lastDown, lastBufferClear, packets, highestReceived := GoUp, None, None, map[], 0;
      sentPackets, receivedPackets, reorderedPacketsReceived := NO_PACKETS, NO_PACKETS, NO_PACKETS;
      ecnPackets, duplicatedPackets := NO_PACKETS, NO_PACKETS;
      droppedPacketsInjected, droppedPacketsBufferFull := NO_PACKETS, NO_PACKETS;
      droppedPacketsBufferCleared, droppedPacketsDown := NO_PACKETS, NO_PACKETS;
      bufferUsage, maxBufferUsage := 0, 0;
    }

    method HandleEvent(event: NodeEvent, now: Time)
      requires Valid()
      modifies this
      ensures View() == NodeReplay.HandleEvent(old(View()), event, now) && Valid()
    {
      if event.status.Some? {
        if event.status.value.GoDown? {
          lastDown := Some(now);
        }
        status := event.status.value;
      }
      if event.clearBuffer {
        lastBufferClear := Some(now);
      }
    }

    method AddPacketToBuffer(packet: PacketId, sizeBytes: nat, now: Time) returns (fatal: Option<FatalError>)
      requires Valid()
      modifies this, errorTracker
      ensures Did(AddPacket(old(View()), id, packet, sizeBytes, now), old(errorTracker.nonFatalErrors), fatal)
    {
      if status.GoDown? {
        errorTracker.Track(NodeDownPacketReceive(id, packet));
      }
      var alreadyExists := packet in packets;
      ghost var before := packets;
      packets := packets[packet := HeldPacket(now, sizeBytes, 0)];
      if alreadyExists {
        return Some(PacketAlreadyReceived(packet));
      }
      SumSizesInsert(before, packet, HeldPacket(now, sizeBytes, 0));
      bufferUsage := bufferUsage + sizeBytes;
      return None;
    }

    /** Subtracting the packet's size never underflows: the usage is the sum of the sizes held. */
    method RemovePacketFromBuffer(packet: PacketId) returns (removed: Option<HeldPacket>)
      requires Valid()
      modifies this`packets, this`bufferUsage
      ensures Valid()
      ensures removed.None? <==> packet !in old(packets)
      ensures removed.None? ==> View() == old(View())
      ensures removed.Some? ==> removed.value == old(packets)[packet] && View() == RemovePacket(old(View()), packet)
    {
      if packet !in packets {
        return None;
      }
      var p := packets[packet];
      SumSizesRemove(packets, packet);
      packets := packets - {packet};
      assert p.size <= bufferUsage;
      bufferUsage := bufferUsage - p.size;
      return Some(p);
    }

    method PacketCreated(packet: PacketId, sizeBytes: nat, now: Time) returns (fatal: Option<FatalError>)
      requires Valid()
      modifies this, errorTracker
      ensures Did(Created(old(View()), id, packet, sizeBytes, now), old(errorTracker.nonFatalErrors), fatal)
    {
      fatal := AddPacketToBuffer(packet, sizeBytes, now);
    }

    method PacketReceived(packet: PacketId, number: nat, sizeBytes: nat, droppedOnArrival: bool, now: Time)
      returns (fatal: Option<FatalError>)
      requires Valid()
      modifies this, errorTracker
      ensures Did(Received(old(View()), id, packet, number, sizeBytes, droppedOnArrival, now),
                  old(errorTracker.nonFatalErrors), fatal)
    {
      receivedPackets := receivedPackets.TrackOne(sizeBytes);
      if highestReceived > number {
        reorderedPacketsReceived := reorderedPacketsReceived.TrackOne(sizeBytes);
      }
      highestReceived := Max(highestReceived, number);
      if droppedOnArrival {
        droppedPacketsDown := droppedPacketsDown.TrackOne(sizeBytes);
        if status.GoUp? {
          errorTracker.Track(NodeUpPacketDroppedOnArrival(id, packet));
        }
        return None;
      }
      fatal := AddPacketToBuffer(packet, sizeBytes, now);
    }

    method PacketDuplicated(packet: PacketId, sizeBytes: nat, now: Time) returns (fatal: Option<FatalError>)
      requires Valid()
      modifies this, errorTracker
      ensures Did(Duplicated(old(View()), id, packet, sizeBytes, now), old(errorTracker.nonFatalErrors), fatal)
    {
      duplicatedPackets := duplicatedPackets.TrackOne(sizeBytes);
      fatal := AddPacketToBuffer(packet, sizeBytes, now);
    }

    method PacketSent(packet: PacketId) returns (fatal: Option<FatalError>, sent: Option<HeldPacket>)
      requires Valid()
      modifies this, errorTracker
      ensures Did(Sent(old(View()), id, packet), old(errorTracker.nonFatalErrors), fatal)
      ensures fatal.None? ==> packet in old(packets) && sent == Some(old(packets)[packet])
    {
      if status.GoDown? {
        errorTracker.Track(NodeDownPacketSend(id, packet));
      }
      sent := RemovePacketFromBuffer(packet);
      if sent.None? {
        return Some(MissingPacket(packet)), None;
      }
      sentPackets := sentPackets.TrackOne(sent.value.size);
      if lastBufferClear.Some? && sent.value.arrivedAt < lastBufferClear.value {
        errorTracker.Track(PacketSurvivedBufferCorruption(id, packet));
      }
      fatal := None;
    }

    method PacketDeliveredToAppLayer(packet: PacketId) returns (fatal: Option<FatalError>)
      requires Valid()
      modifies this
      ensures Did(Delivered(old(View()), packet), old(errorTracker.nonFatalErrors), fatal)
    {
      var removed := RemovePacketFromBuffer(packet);
      fatal := if removed.None? then Some(MissingPacket(packet)) else None;
    }

    method PacketDropped(packet: PacketId, reason: DropReason) returns (fatal: Option<FatalError>)
      requires Valid()
      modifies this
      ensures Did(Dropped(old(View()), packet, reason), old(errorTracker.nonFatalErrors), fatal)
    {
      var removed := RemovePacketFromBuffer(packet);
      if removed.None? {
        return Some(MissingPacket(packet));
      }
      match reason {
        case Random => droppedPacketsInjected := droppedPacketsInjected.TrackOne(removed.value.size);
        case BufferFull => droppedPacketsBufferFull := droppedPacketsBufferFull.TrackOne(removed.value.size);
        case BufferCleared => droppedPacketsBufferCleared := droppedPacketsBufferCleared.TrackOne(removed.value.size);
      }
      fatal := None;
    }

    method PacketEcn(sizeBytes: nat)
      requires Valid()
      modifies this
      ensures View() == Ecn(old(View()), sizeBytes) && Valid()
    {
      ecnPackets := ecnPackets.TrackOne(sizeBytes);
    }

    method PacketHasExtraDelay(packet: PacketId, delay: Time) returns (fatal: Option<FatalError>)
      requires Valid()
      modifies this
      ensures Did(HasExtraDelay(old(View()), packet, delay), old(errorTracker.nonFatalErrors), fatal)
    {
      if packet !in packets {
        return Some(MissingPacket(packet));
      }
      SumSizesUpdate(packets, packet, packets[packet].(extraDelay := delay));
      packets := packets[packet := packets[packet].(extraDelay := delay)];
      return None;
    }

    method UpdateMaxBufferUsage() returns (most: nat)
      requires Valid()
      modifies this`maxBufferUsage
      ensures View() == UpdateMaxUsage(old(View())) && most == maxBufferUsage && Valid()
    {
      maxBufferUsage := Max(bufferUsage, maxBufferUsage);
      return maxBufferUsage;
    }
  }

  class ReplayedLink {
    var status: UpDown
    var lastDownRelative: Option<Time>
    var bandwidthUsageBits: nat
    var packetsInBandwidthWindow: seq<Send>
    var maxBandwidthUsageBps: nat

    ghost function View(): LinkView
      reads this
    {
      LinkView(status.GoUp?, lastDownRelative, bandwidthUsageBits, packetsInBandwidthWindow, maxBandwidthUsageBps)
    }

    /** The counter is the sum over the window, so taking a packet off the window never underflows. */
    ghost predicate Valid()
      reads this
    {
      bandwidthUsageBits == SumBits(packetsInBandwidthWindow)
    }

    constructor ()
      ensures Valid() && View() == FRESH_LINK
    {
      status, lastDownRelative := GoUp, None;
      bandwidthUsageBits, packetsInBandwidthWindow, maxBandwidthUsageBps := 0, [], 0;
    }

    method SetStatus(status: UpDown, now: Time)
      requires Valid()
      modifies this
      ensures View() == BandwidthWindow.SetStatus(old(View()), status, now) && Valid()
    {
      if status.GoDown? {
        lastDownRelative := Some(now);
      }
      this.status := status;
    }

    /** Takes what is too old off the front of the window, and counts down. */
    method DropExpired(span: nat, now: Time)
      requires Valid()
      modifies this`packetsInBandwidthWindow, this`bandwidthUsageBits
      ensures packetsInBandwidthWindow == Expire(old(packetsInBandwidthWindow), span, now) && Valid()
    {
      while packetsInBandwidthWindow != [] && packetsInBandwidthWindow[0].time + span < now
        invariant Valid()
        invariant Expire(packetsInBandwidthWindow, span, now) == Expire(old(packetsInBandwidthWindow), span, now)
        decreases |packetsInBandwidthWindow|
      {
        bandwidthUsageBits := bandwidthUsageBits - packetsInBandwidthWindow[0].bits;
        packetsInBandwidthWindow := packetsInBandwidthWindow[1..];
      }
    }

    method PacketSent(now: Time, sizeBytes: nat, bandwidthBps: nat) returns (usedBps: nat)
      requires Valid()
      modifies this
      ensures View() == BandwidthWindow.PacketSent(old(View()), now, sizeBytes, bandwidthBps) && Valid()
      ensures usedBps == UsedBps(View(), bandwidthBps)
    {
      hide Expire, SumBits;
      var windowSeconds := WindowSeconds(bandwidthBps);
      DropExpired(windowSeconds * NS_PER_SECOND, now);
      var send := Send(now, sizeBytes * 8);
      SumBitsAppend(packetsInBandwidthWindow, [send]);
      SumBitsOne(send);
      packetsInBandwidthWindow := packetsInBandwidthWindow + [send];
      bandwidthUsageBits := bandwidthUsageBits + send.bits;
      usedBps := bandwidthUsageBits / windowSeconds;
      maxBandwidthUsageBps := Max(maxBandwidthUsageBps, usedBps);
    }
  }

  lemma SumBitsOne(send: Send)
    ensures SumBits([send]) == send.bits
  {
    assert SumBits([send][1..]) == 0;
  }
}
