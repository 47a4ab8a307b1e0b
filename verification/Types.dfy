/** Identifiers, time, and the trace steps shared by the simulator and the replay verifier. */
module Types {

  datatype Option<+T> = None | Some(value: T)

  /** Nanoseconds since the start of the simulation. */
  type Time = nat

  const NS_PER_MS: nat := 1_000_000
  const NS_PER_SECOND: nat := 1_000_000_000

  // Only equality of identifiers matters, so they are modelled as numbers.
  type NodeId = nat
  type LinkId = nat
  type PacketId = nat

  datatype NodeKind = Host | Router

  /** The target status carried by a link or node event. */
  datatype UpDown = GoUp | GoDown

  datatype DropReason = Random | BufferFull | BufferCleared

  datatype LinkEvent = LinkEvent(link: LinkId, status: Option<UpDown>)

  datatype NodeEvent = NodeEvent(node: NodeId, status: Option<UpDown>, clearBuffer: bool)

  datatype StepKind =
    | PacketInNode(packet: PacketId, number: nat, size: nat, node: NodeId, droppedOnArrival: bool)
    | PacketDropped(packet: PacketId, node: NodeId, reason: DropReason)
    | PacketLostInTransit(packet: PacketId, link: LinkId)
    | PacketDuplicated(packet: PacketId, number: nat, size: nat, node: NodeId)
    | PacketExtraDelay(packet: PacketId, node: NodeId, delay: Time)
    | PacketCongestionEvent(packet: PacketId, number: nat, size: nat, node: NodeId)
    | PacketInTransit(packet: PacketId, node: NodeId, link: LinkId)
    | PacketDeliveredToApplication(packet: PacketId, number: nat, size: nat, node: NodeId)
    | NetworkEvent(linkEvent: Option<LinkEvent>, nodeEvent: Option<NodeEvent>)

  datatype Step = Step(time: Time, kind: StepKind)

  predicate TimeSorted(trace: seq<Step>) {
    forall i, j :: 0 <= i < j < |trace| ==> trace[i].time <= trace[j].time
  }

  function LastTime(trace: seq<Step>): Time {
    if trace == [] then 0 else trace[|trace| - 1].time
  }

  function Max(a: nat, b: nat): nat {
    if a < b then b else a
  }
}
